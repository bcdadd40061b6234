/**
 * `load` and `loadPlaylist`: how one positional entry becomes a list of
 * track descriptors. The loading of a playlist's text and its parsing by the
 * playlist grammar library are a parameter, `source`, that gives the
 * parser's output for an entry and a format.
 */
module Loader {
  import opened Wrappers
  import opened Text
  import opened NodePath
  import opened Config

  /** A track the daemon can play: `{file: ...}`. */
  datatype Descriptor = Descriptor(file: string)

  /** The three playlist formats the script recognises. */
  datatype Format = Pls | M3u | Asx

  function FormatName(f: Format): string
  {
    match f
    case Pls => "pls"
    case M3u => "m3u"
    case Asx => "asx"
  }

  /** The output of loading and parsing an entry's text as a playlist of a given format. */
  type Source = (string, Format) -> seq<Descriptor>

  /** The extension without its first character, cut before its first `?`. */
  function Token(ext: string): (tok: string)
    ensures forall k | 0 <= k < |tok| :: tok[k] != '?'
    ensures tok <= DropFirst(ext)
    ensures '?' !in DropFirst(ext) ==> tok == DropFirst(ext)
    ensures '?' in DropFirst(ext) ==> |tok| < |DropFirst(ext)| && DropFirst(ext)[|tok|] == '?'
  {
    var e := DropFirst(ext);
    var q := IndexOf(e, '?');
    if q != -1 then e[..q] else e
  }

  /** `ext` as `load` computes it from an entry. */
  function ExtToken(entry: string): string
  {
    Token(Lower(ExtName(entry)))
  }

  /** The format whose name the token is, if any. */
  function FormatOf(tok: string): (r: Option<Format>)
    ensures forall f :: r == Some(f) <==> FormatName(f) == tok
  {
    if tok == "pls" then Some(Pls)
    else if tok == "m3u" then Some(M3u)
    else if tok == "asx" then Some(Asx)
    else None
  }

  /** The route `load` takes: `Some(f)` is playlist loading as format `f`, `None` passthrough. */
  function Classify(entry: string): Option<Format>
  {
    FormatOf(ExtToken(entry))
  }

  /** `Array.prototype.slice(0, end)` on an integer `end`: a negative end counts from the back. */
  function SliceTo<T>(s: seq<T>, end: int): (r: seq<T>)
    ensures r <= s
    ensures 0 <= end ==> |r| == if end < |s| then end else |s|
    ensures end < 0 ==> |r| == if |s| + end < 0 then 0 else |s| + end
  {
    if end < 0 then (if |s| + end < 0 then [] else s[..|s| + end])
    else if end < |s| then s[..end]
    else s
  }

  /**
   * The limit `loadPlaylist` applies to the parsed playlist. As written it
   * applies only in verbose mode; `full.length > undefined` is false, so an
   * absent limit never cuts.
   */
  function Truncate(full: seq<Descriptor>, args: Args): (r: seq<Descriptor>)
    ensures r <= full
    ensures Verbose(args) && args.num.Some? && 0 <= args.num.value < |full| ==> |r| == args.num.value
    ensures Verbose(args) && args.num.Some? && args.num.value < 0 ==>
      |r| == if |full| + args.num.value < 0 then 0 else |full| + args.num.value
    ensures !(Verbose(args) && args.num.Some? && args.num.value < |full|) ==> r == full
  {
    if Verbose(args) && args.num.Some? && |full| > args.num.value then SliceTo(full, args.num.value)
    else full
  }

  /** What `load` resolves to for one entry. */
  function LoadEntry(entry: string, args: Args, source: Source): (r: seq<Descriptor>)
    ensures Classify(entry).None? ==> r == [Descriptor(entry)]
    ensures Classify(entry).Some? ==> r <= source(entry, Classify(entry).value)
    ensures Classify(entry).Some? && !(Verbose(args) && args.num.Some?) ==> r == source(entry, Classify(entry).value)
  {
    match Classify(entry)
    case Some(f) => Truncate(source(entry, f), args)
    case None => [Descriptor(entry)]
  }

  /** `loadPlaylist`, once the text is parsed: `full` is reassigned when the limit applies. */
  method LoadPlaylist(entry: string, format: Format, args: Args, source: Source) returns (full: seq<Descriptor>)
    ensures full == Truncate(source(entry, format), args)
  {
    full := source(entry, format);
    if Verbose(args) && args.num.Some? && |full| > args.num.value {
      full := SliceTo(full, args.num.value);
    }
  }

  /** The first lines of `load`: `ext` is narrowed in place. */
  method Extension(entry: string) returns (ext: string)
    ensures ext == ExtToken(entry)
  {
    ext := DropFirst(Lower(ExtName(entry)));
    var q := IndexOf(ext, '?');
    if q != -1 {
      ext := ext[..q];
    }
  }

  /** `load`, step by step: the three formats are tried in turn, and anything else passes through. */
  method Load(entry: string, args: Args, source: Source) returns (descs: seq<Descriptor>)
    ensures descs == LoadEntry(entry, args, source)
  {
    var ext := Extension(entry);
    var playlist: Option<seq<Descriptor>> := None;
    if ext == "pls" {
      var full := LoadPlaylist(entry, Pls, args, source);
      playlist := Some(full);
    } else if ext == "m3u" {
      var full := LoadPlaylist(entry, M3u, args, source);
      playlist := Some(full);
    } else if ext == "asx" {
      var full := LoadPlaylist(entry, Asx, args, source);
      playlist := Some(full);
    }
    if playlist.Some? {
      descs := playlist.value;
    } else {
      descs := [Descriptor(entry)];
    }
  }

  /** The extension, lower-cased, is the format's name after a dot, followed by nothing or by a `?`. */
  predicate MatchesFormat(ext: string, f: Format)
  {
    var n := "." + FormatName(f);
    n <= ext && (|ext| == |n| || ext[|n|] == '?')
  }

  /** A dot-started extension yields the format's name exactly when it names that format. */
  lemma TokenIff(ext: string, f: Format)
    requires |ext| > 0 ==> ext[0] == '.'
    ensures Token(ext) == FormatName(f) <==> MatchesFormat(ext, f)
  {
    var e1 := DropFirst(ext);
    var n := FormatName(f);
    var q := IndexOf(e1, '?');
    assert |n| == 3 && forall k | 0 <= k < 3 :: n[k] != '?';
    if Token(ext) == n {
      assert |ext| > 0;
      assert ext == [ext[0]] + e1;
      if q == -1 {
        assert e1 == n;
        assert ext == "." + n;
      } else {
        assert e1[..q] == n;
        assert ext[..4] == "." + n;
      }
    }
    if MatchesFormat(ext, f) {
      assert ext[..4] == "." + n;
      assert e1[..3] == n;
      if |ext| == 4 {
        assert e1 == n;
      } else {
        assert e1[3] == '?';
        assert q == 3;
      }
    }
  }

  /** An entry goes to playlist loading as format `f` exactly when its extension names `f`. */
  lemma ClassifyIff(entry: string, f: Format)
    ensures Classify(entry) == Some(f) <==> MatchesFormat(Lower(ExtName(entry)), f)
  {
    var ext := Lower(ExtName(entry));
    ExtNameSpec(entry);
    assert |ext| > 0 ==> ext[0] == '.';
    TokenIff(ext, f);
  }

  /** Entries that agree once lower-cased take the same route. */
  lemma ClassifyCaseInsensitive(a: string, b: string)
    requires Lower(a) == Lower(b)
    ensures Classify(a) == Classify(b)
  {
    ExtNameLower(a);
    ExtNameLower(b);
  }

  /** A worked case: an upper-case `.M3U` file under a directory is loaded as an M3U playlist. */
  lemma ClassifyExample()
    ensures Classify("a/B.M3U") == Some(M3u)
  {
    var e := "a/B.M3U";
    assert TrimTrailingSlashes(e) == e;
    assert LastIndexOf(e, '/') == 1 by {
      assert e[1] == '/' && forall k | 1 < k < |e| :: e[k] != '/';
    }
    assert LastSegment(e) == "B.M3U";
    assert LastIndexOf("B.M3U", '.') == 1 by {
      var seg := "B.M3U";
      assert seg[1] == '.' && forall k | 1 < k < |seg| :: seg[k] != '.';
    }
    assert ExtName(e) == ".M3U";
    assert Lower(".M3U") == ".m3u";
    assert MatchesFormat(".m3u", M3u);
    ClassifyIff(e, M3u);
  }
}
