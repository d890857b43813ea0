/**
 * The image lookup and cache of image_manager.py.
 *
 * The managed images directory is the set of file names in it; a path in
 * that directory is identified by its file name (the directory prefix is
 * the same for all). Images and Tk photos are opaque handles: opening and
 * thumbnailing an image, and turning it into a Tk photo, are library calls
 * whose outcome is passed in.
 */
module Images {
  import opened Wrappers

  /** An opened (and possibly thumbnailed) image. */
  datatype Image = Image(handle: nat)

  /** A Tk photo made from an image. */
  datatype Photo = Photo(handle: nat)

  /** The `max_size` bound, `(width, height)`. */
  datatype Size = Size(width: int, height: int)

  /** A cache entry is keyed by the image path and the size bound it was scaled to. */
  datatype CacheKey = CacheKey(path: string, maxSize: Option<Size>)

  /** The calendar day the clock gives, as far as the file names need it. */
  datatype Date = Date(month: nat, day: nat)

  predicate ValidDate(d: Date) {
    1 <= d.month <= 12 && 1 <= d.day <= 31
  }

  /** The image shown when there is none for the day. */
  const DefaultImage: string := "每日主题.png"

  // ---------------------------------------------------------------------------
  // Candidate names

  function Digit(d: nat): char
    requires d < 10
  {
    ('0' as int + d) as char
  }

  /** Two-digit zero-padded decimal, as `%m` and `%d` format. */
  function Pad2(n: nat): (r: string)
    requires n < 100
    ensures |r| == 2 && '0' <= r[0] <= '9' && '0' <= r[1] <= '9'
    ensures (r[0] as int - '0' as int) * 10 + (r[1] as int - '0' as int) == n
  {
    [Digit(n / 10), Digit(n % 10)]
  }

  /** `strftime('%m-%d')`. */
  function MonthDay(d: Date): (r: string)
    requires ValidDate(d)
    ensures |r| == 5 && r[2] == '-'
    ensures '0' <= r[0] <= '9' && '0' <= r[1] <= '9' && '0' <= r[3] <= '9' && '0' <= r[4] <= '9'
    ensures (r[0] as int - '0' as int) * 10 + (r[1] as int - '0' as int) == d.month
    ensures (r[3] as int - '0' as int) * 10 + (r[4] as int - '0' as int) == d.day
  {
    Pad2(d.month) + "-" + Pad2(d.day)
  }

  /** `_get_today_image_names`: the day's PNG, then the day's JPG, then the default, in priority order. */
  function TodayImageNames(today: Date): (names: seq<string>)
    requires ValidDate(today)
    ensures |names| == 3 && names[2] == DefaultImage
    ensures names[0] == MonthDay(today) + ".png" && names[1] == MonthDay(today) + ".jpg"
    ensures |names[0]| == |names[1]| == 9 && names[0][..5] == names[1][..5] == MonthDay(today)
  {
    [MonthDay(today) + ".png", MonthDay(today) + ".jpg", DefaultImage]
  }

  /** The three candidates are distinct, and different days have different dated candidates. */
  lemma CandidatesDistinct(today: Date, other: Date)
    requires ValidDate(today) && ValidDate(other)
    ensures var names := TodayImageNames(today);
      names[0] != names[1] && names[0] != names[2] && names[1] != names[2]
    ensures today != other ==>
      TodayImageNames(today)[0] != TodayImageNames(other)[0] &&
      TodayImageNames(today)[1] != TodayImageNames(other)[1]
  {
    var names := TodayImageNames(today);
    assert names[0][6] == 'p' && names[1][6] == 'j';
    assert '0' <= names[0][0] <= '9' && '0' <= names[1][0] <= '9' && names[2][0] == '每';
    if today != other {
      var m1, m2 := MonthDay(today), MonthDay(other);
      assert names[0][..5] == m1 && TodayImageNames(other)[0][..5] == m2;
    }
  }

  // ---------------------------------------------------------------------------
  // The extension filter used when staging images

  /** ASCII lower-casing of one character. */
  function LowerChar(c: char): char {
    if 'A' <= c <= 'Z' then (c as int + 32) as char else c
  }

  function Lower(s: string): (r: string)
    ensures |r| == |s| && forall i :: 0 <= i < |s| ==> r[i] == LowerChar(s[i])
  {
    seq(|s|, i requires 0 <= i < |s| => LowerChar(s[i]))
  }

  predicate EndsWith(s: string, suffix: string) {
    |suffix| <= |s| && s[|s| - |suffix|..] == suffix
  }

  /** `filename.lower().endswith(('.png', '.jpg', '.jpeg'))`. */
  predicate IsImageFile(name: string) {
    var l := Lower(name);
    EndsWith(l, ".png") || EndsWith(l, ".jpg") || EndsWith(l, ".jpeg")
  }

  /** The names from a directory listing that staging copies. */
  function ImageFilesIn(listing: set<string>): (r: set<string>)
    ensures r <= listing
    ensures forall n :: n in listing ==> (n in r <==> IsImageFile(n))
  {
    set n | n in listing && IsImageFile(n)
  }

  /** The filter ignores case, and lets through every name the lookup may ask for. */
  lemma FilterAcceptsCandidates(today: Date)
    requires ValidDate(today)
    ensures forall n :: n in TodayImageNames(today) ==> IsImageFile(n)
    ensures IsImageFile("08-01.PNG") && IsImageFile("a.JpEg") && !IsImageFile("notes.txt") && !IsImageFile("png")
  {
    var names := TodayImageNames(today);
    assert Lower(names[0])[5..] == ".png";
    assert Lower(names[1])[5..] == ".jpg";
    assert Lower(names[2])[|names[2]| - 4..] == ".png";
    assert Lower("08-01.PNG")[5..] == ".png";
    assert Lower("a.JpEg")[1..] == ".jpeg";
    assert Lower("notes.txt")[5..] == ".txt";
    assert Lower("notes.txt")[4..] != ".jpeg" by {
      assert Lower("notes.txt")[4..][1] == '.';
    }
  }

  // ---------------------------------------------------------------------------
  // First-existing lookup

  /** The first of `names` that exists among `files`. */
  function FirstPresent(names: seq<string>, files: set<string>): (r: Option<string>)
    ensures r.None? <==> forall j :: 0 <= j < |names| ==> names[j] !in files
    ensures r.Some? ==> r.value in files &&
                        exists k :: 0 <= k < |names| && names[k] == r.value && forall j :: 0 <= j < k ==> names[j] !in files
  {
    if names == [] then None
    else if names[0] in files then Some(names[0])
    else
      var r := FirstPresent(names[1..], files);
      assert forall j :: 1 <= j < |names| ==> names[j] == names[1..][j - 1];
      if r.Some? then
        var k :| 0 <= k < |names[1..]| && names[1..][k] == r.value && forall j :: 0 <= j < k ==> names[1..][j] !in files;
        assert names[k + 1] == r.value;
        r
      else r
  }

  /** The result of `load_image`: the image, its path, and the cache afterwards. */
  datatype Loaded = Loaded(image: Option<Image>, path: Option<string>, cache: map<CacheKey, Image>)

  /**
   * `load_image` as a function of the directory, the cache, the day and the
   * size bound; `decoded` is what opening and thumbnailing the file gives on
   * a cache miss (None when the library raises).
   */
  function Load(files: set<string>, cache: map<CacheKey, Image>, today: Date, maxSize: Option<Size>,
                decoded: Option<Image>): (r: Loaded)
    requires ValidDate(today)
    ensures r.image.Some? <==> r.path.Some?
    ensures r.path.Some? ==> r.path == FirstPresent(TodayImageNames(today), files)
    ensures r.image.None? ==> r.cache == cache
    ensures r.image.Some? ==> r.cache == cache[CacheKey(r.path.value, maxSize) := r.image.value]
    ensures var p := FirstPresent(TodayImageNames(today), files);
      p.Some? && CacheKey(p.value, maxSize) in cache ==> r == Loaded(Some(cache[CacheKey(p.value, maxSize)]), p, cache)
    ensures var p := FirstPresent(TodayImageNames(today), files);
      p.Some? && CacheKey(p.value, maxSize) !in cache && decoded.Some? ==> r.image == decoded && r.path == p
    ensures var p := FirstPresent(TodayImageNames(today), files);
      p.Some? && CacheKey(p.value, maxSize) !in cache && decoded.None? ==> r == Loaded(None, None, cache)
  {
    match FirstPresent(TodayImageNames(today), files)
    case None => Loaded(None, None, cache)
    case Some(path) =>
      var key := CacheKey(path, maxSize);
      if key in cache then Loaded(Some(cache[key]), Some(path), cache)
      else match decoded
        case None => Loaded(None, None, cache)
        case Some(img) => Loaded(Some(img), Some(path), cache[key := img])
  }

  /** With no candidate in the directory, loading fails without touching the cache. */
  lemma LoadWithoutCandidate(files: set<string>, cache: map<CacheKey, Image>, today: Date,
                             maxSize: Option<Size>, decoded: Option<Image>)
    requires ValidDate(today)
    requires forall n :: n in TodayImageNames(today) ==> n !in files
    ensures Load(files, cache, today, maxSize, decoded) == Loaded(None, None, cache)
  {
    var names := TodayImageNames(today);
    assert forall j :: 0 <= j < |names| ==> names[j] in names;
  }

  /** A hit returns the cached image whatever the loader would give, and a successful load is a hit next time. */
  lemma LoadHitIsStable(files: set<string>, cache: map<CacheKey, Image>, today: Date,
                        maxSize: Option<Size>, decoded: Option<Image>, reopened: Option<Image>)
    requires ValidDate(today)
    ensures var first := Load(files, cache, today, maxSize, decoded);
      first.image.Some? ==> Load(files, first.cache, today, maxSize, reopened) == first
  {
    var first := Load(files, cache, today, maxSize, decoded);
    if first.image.Some? {
      var key := CacheKey(first.path.value, maxSize);
      assert key in first.cache && first.cache[key] == first.image.value;
      assert first.cache[key := first.image.value] == first.cache;
    }
  }

  // ---------------------------------------------------------------------------
  // The error text of create_photo_image

  /** `sep.join(parts)`. */
  function Join(parts: seq<string>, sep: string): string
    decreases |parts|
  {
    if parts == [] then ""
    else if |parts| == 1 then parts[0]
    else parts[0] + sep + Join(parts[1..], sep)
  }

  predicate OccursAt(text: string, part: string, i: int) {
    0 <= i <= |text| - |part| && text[i..i + |part|] == part
  }

  ghost predicate Contains(text: string, part: string) {
    exists i :: OccursAt(text, part, i)
  }

  lemma ContainsInSuffix(text: string, prefix: string, part: string)
    requires Contains(text, part)
    ensures Contains(prefix + text, part)
  {
    var i :| OccursAt(text, part, i);
    assert (prefix + text)[|prefix| + i..|prefix| + i + |part|] == part;
    assert OccursAt(prefix + text, part, |prefix| + i);
  }

  /** Every part occurs in the joined text. */
  lemma {:induction false} JoinContainsParts(parts: seq<string>, sep: string)
    ensures forall j :: 0 <= j < |parts| ==> Contains(Join(parts, sep), parts[j])
    decreases |parts|
  {
    if |parts| == 1 {
      assert OccursAt(Join(parts, sep), parts[0], 0);
    } else if |parts| > 1 {
      var rest := Join(parts[1..], sep);
      JoinContainsParts(parts[1..], sep);
      assert Join(parts, sep) == parts[0] + (sep + rest);
      assert OccursAt(Join(parts, sep), parts[0], 0);
      forall j | 1 <= j < |parts| ensures Contains(Join(parts, sep), parts[j]) {
        assert parts[j] == parts[1..][j - 1];
        ContainsInSuffix(rest, sep, parts[j]);
        ContainsInSuffix(sep + rest, parts[0], parts[j]);
      }
    }
  }

  const LoadErrorPrefix: string := "无法加载图片，请确保以下文件之一存在：\n"
  const PhotoErrorPrefix: string := "创建图片对象失败："

  /** The message shown when no image loads: it names every candidate file. */
  function LoadErrorMessage(today: Date): (msg: string)
    requires ValidDate(today)
    ensures forall n :: n in TodayImageNames(today) ==> Contains(msg, n)
  {
    var names := TodayImageNames(today);
    JoinContainsParts(names, ", ");
    forall n | n in names ensures Contains(LoadErrorPrefix + Join(names, ", "), n) {
      ContainsInSuffix(Join(names, ", "), LoadErrorPrefix, n);
    }
    LoadErrorPrefix + Join(names, ", ")
  }

  // ---------------------------------------------------------------------------

  /** The image manager: the managed directory's contents and the image cache. */
  class ImageManager {
    var files: set<string>
    var cache: map<CacheKey, Image>

    /** `existing` is what the managed directory already holds. */
    constructor (existing: set<string>)
      ensures files == existing && cache == map[]
    {
      files := existing;
      cache := map[];
    }

    /** `get_image_path`: the first candidate of the day that the directory holds, or None. */
    method GetImagePath(today: Date) returns (path: Option<string>)
      requires ValidDate(today)
      ensures path == FirstPresent(TodayImageNames(today), files)
    {
      var names := TodayImageNames(today);
      for i := 0 to |names|
        invariant FirstPresent(names[i..], files) == FirstPresent(names, files)
      {
        if names[i] in files {
          return Some(names[i]);
        }
        assert names[i..][1..] == names[i + 1..];
      }
      return None;
    }

    /**
     * `copy_images_from`: `listing` is the source directory's file names, or
     * None when the directory does not exist (FileNotFoundError).
     */
    method CopyImagesFrom(srcDir: string, listing: Option<set<string>>) returns (error: Option<string>)
      modifies this`files
      ensures listing.None? ==> error == Some("源目录不存在：" + srcDir) && files == old(files)
      ensures listing.Some? ==> error.None? && files == old(files) + ImageFilesIn(listing.value)
    {
      if listing.None? {
        return Some("源目录不存在：" + srcDir);
      }
      var remaining := listing.value;
      while remaining != {}
        invariant remaining <= listing.value
        invariant files == old(files) + ImageFilesIn(listing.value - remaining)
        decreases remaining
      {
        var name :| name in remaining;
        if IsImageFile(name) {
          files := files + {name};
        }
        remaining := remaining - {name};
      }
      assert listing.value - remaining == listing.value;
      return None;
    }

    /** `load_image`; `decoded` is the library's result of opening and scaling the file on a miss. */
    method LoadImage(maxSize: Option<Size>, today: Date, decoded: Option<Image>)
      returns (image: Option<Image>, path: Option<string>)
      requires ValidDate(today)
      modifies this`cache
      ensures Loaded(image, path, cache) == Load(files, old(cache), today, maxSize, decoded)
    {
      path := GetImagePath(today);
      if path.None? {
        return None, None;
      }
      var key := CacheKey(path.value, maxSize);
      if key in cache {
        return Some(cache[key]), path;
      }
      if decoded.None? {
        return None, None;
      }
      cache := cache[key := decoded.value];
      image := decoded;
    }

    /**
     * `create_photo_image`; `converted` is what making the Tk photo gives:
     * the photo, or the text of the exception it raised.
     */
    method CreatePhotoImage(maxSize: Option<Size>, today: Date, decoded: Option<Image>, converted: Result<Photo, string>)
      returns (photo: Option<Photo>, error: Option<string>)
      requires ValidDate(today)
      modifies this`cache
      ensures var l := Load(files, old(cache), today, maxSize, decoded);
        && cache == l.cache
        && (l.image.None? ==> photo.None? && error == Some(LoadErrorMessage(today)))
        && (l.image.Some? && converted.Ok? ==> photo == Some(converted.value) && error.None?)
        && (l.image.Some? && converted.Err? ==> photo.None? && error == Some(PhotoErrorPrefix + converted.error))
    {
      var image, path := LoadImage(maxSize, today, decoded);
      if image.None? {
        return None, Some(LoadErrorMessage(today));
      }
      match converted
      case Ok(p) => return Some(p), None;
      case Err(e) => return None, Some(PhotoErrorPrefix + e);
    }

    /** `_clear_cache`. */
    method ClearCache()
      modifies this`cache
      ensures cache == map[]
    {
      cache := map[];
    }

    /** `cleanup`: releases the cache. */
    method Cleanup()
      modifies this`cache
      ensures cache == map[]
    {
      ClearCache();
    }
  }
}
