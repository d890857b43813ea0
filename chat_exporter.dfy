/**
 * The chat transcript of chat_exporter.py: an append-only list of messages
 * and the plain-text transcript it is exported as. Timestamps come from the
 * clock and are passed in; writing the file is modelled as the file name and
 * the text that would be written.
 */
module Chat {
  import opened Wrappers

  /** One message: `{timestamp, sender, message}`. */
  datatype Record = Record(timestamp: string, sender: string, message: string)

  /** What an export produces: the file's name and its contents. */
  datatype Export = Export(fileName: string, text: string)

  const UserSender: string := "用户"
  const SystemSender: string := "系统"
  const Header: string := "=== 每日主题对话记录 ===\n\n"

  /** The transcript block of one record: `[ts] sender:\nmessage\n\n`. */
  function Block(r: Record): string {
    "[" + r.timestamp + "] " + r.sender + ":\n" + r.message + "\n\n"
  }

  /** The blocks of all records, in history order. */
  function Blocks(history: seq<Record>): string
    decreases |history|
  {
    if history == [] then "" else Block(history[0]) + Blocks(history[1..])
  }

  /** The full text `export_chat` writes. */
  function Transcript(history: seq<Record>): string {
    Header + Blocks(history)
  }

  /** The blocks of a concatenation are the concatenation of the blocks: records appear in order. */
  lemma {:induction false} BlocksConcat(a: seq<Record>, b: seq<Record>)
    ensures Blocks(a + b) == Blocks(a) + Blocks(b)
    decreases |a|
  {
    if a == [] {
      assert a + b == b;
    } else {
      assert (a + b)[0] == a[0] && (a + b)[1..] == a[1..] + b;
      BlocksConcat(a[1..], b);
    }
  }

  /** Adding a message extends the transcript by exactly that message's block. */
  lemma TranscriptGrows(history: seq<Record>, r: Record)
    ensures Transcript(history + [r]) == Transcript(history) + Block(r)
  {
    BlocksConcat(history, [r]);
    assert Blocks([r]) == Block(r) + Blocks([]);
  }

  /** Every transcript starts with the header, and each record contributes its block right after the earlier ones. */
  lemma TranscriptLayout(history: seq<Record>, k: nat)
    requires k < |history|
    ensures Header <= Transcript(history)
    ensures Transcript(history[..k]) + Block(history[k]) <= Transcript(history)
  {
    assert history == history[..k] + [history[k]] + history[k + 1..];
    BlocksConcat(history[..k] + [history[k]], history[k + 1..]);
    TranscriptGrows(history[..k], history[k]);
    var before := Transcript(history[..k]);
    var upto := before + Block(history[k]);
    assert Transcript(history) == upto + Blocks(history[k + 1..]);
  }

  /** The chat exporter: the recorded history. */
  class ChatExporter {
    var history: seq<Record>

    constructor ()
      ensures history == []
    {
      history := [];
    }

    /** `add_message`: append one record, from the user or from the system. */
    method AddMessage(message: string, isUser: bool, timestamp: string)
      modifies this
      ensures history == old(history) + [Record(timestamp, if isUser then UserSender else SystemSender, message)]
    {
      var sender := if isUser then UserSender else SystemSender;
      history := history + [Record(timestamp, sender, message)];
    }

    /**
     * `export_chat`: None for an empty history or a failed write; otherwise
     * the file named after `stamp` (`%Y%m%d_%H%M%S`) holding the transcript.
     */
    method ExportChat(stamp: string, writeSucceeds: bool) returns (r: Option<Export>)
      ensures r.None? <==> history == [] || !writeSucceeds
      ensures r.Some? ==> r.value == Export("chat_log_" + stamp + ".txt", Transcript(history))
    {
      if history == [] {
        return None;
      }
      var fileName := "chat_log_" + stamp + ".txt";
      var text := Header;
      for i := 0 to |history|
        invariant text == Transcript(history[..i])
      {
        var msg := history[i];
        TranscriptGrows(history[..i], msg);
        assert history[..i + 1] == history[..i] + [msg];
        text := text + "[" + msg.timestamp + "] " + msg.sender + ":\n" + msg.message + "\n\n";
      }
      assert history[..|history|] == history;
      if !writeSucceeds {
        return None;
      }
      return Some(Export(fileName, text));
    }

    /** `clear_history`. */
    method ClearHistory()
      modifies this
      ensures history == []
    {
      history := [];
    }
  }
}
