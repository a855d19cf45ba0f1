// The compression decision of save_json, the brace scanner of
// stream_json_array and ChunkedProcessor.process_in_chunks.

module FileUtils {
  import opened Json

  // ---------------------------------------------------------------------
  // save_json

  const Mebibyte: nat := 1048576

  /**
   * `should_compress`: the explicit flag when given, else whether compression is
   * on and the encoded size in MB (a true division) exceeds the limit.
   */
  function ShouldCompress(compress: Option<bool>, useCompression: bool, sizeBytes: nat, maxFileSizeMb: int): bool
  {
    if compress.Some? then compress.value
    else useCompression && (sizeBytes as real) / (Mebibyte as real) > maxFileSizeMb as real
  }

  /** Dividing by 2^20 is exact, so the size test is a comparison of byte counts. */
  lemma ShouldCompressBytes(compress: Option<bool>, useCompression: bool, sizeBytes: nat, maxFileSizeMb: int)
    ensures ShouldCompress(compress, useCompression, sizeBytes, maxFileSizeMb) <==>
            if compress.Some? then compress.value
            else useCompression && sizeBytes > maxFileSizeMb * Mebibyte
  {
    var x := (sizeBytes as real) / (Mebibyte as real);
    assert x * (Mebibyte as real) == sizeBytes as real;
    if x > maxFileSizeMb as real {
      assert sizeBytes as real > (maxFileSizeMb * Mebibyte) as real;
    } else {
      assert sizeBytes as real <= (maxFileSizeMb * Mebibyte) as real;
    }
  }

  // Path(filepath) on POSIX: split at '/', drop empty and "." components, keep
  // a root of "/" (or exactly "//"), and print an empty relative path as ".".

  /** A character put in front of a split: a '/' opens a new first piece, any other joins the first piece. */
  function AddChar(c: char, rest: seq<string>): (r: seq<string>)
    requires |rest| >= 1
    ensures |r| >= 1
  {
    if c == '/' then [""] + rest else [[c] + rest[0]] + rest[1..]
  }

  /** `s.split('/')`: the texts between the slashes, in order. */
  function SplitSlash(s: string): (r: seq<string>)
    ensures |r| >= 1
    decreases |s|
  {
    if s == [] then [""] else AddChar(s[0], SplitSlash(s[1..]))
  }

  /** A component Path keeps: not empty, not ".", free of '/'. */
  predicate IsPart(c: string)
  {
    c != "" && c != "." && '/' !in c
  }

  /** What Path keeps of one component: nothing of an empty one or ".". */
  function KeepOne(c: string): seq<string>
  {
    if c == "" || c == "." then [] else [c]
  }

  /** The components Path keeps, in order. */
  function Keep(cs: seq<string>): (r: seq<string>)
    decreases |cs|
  {
    if cs == [] then [] else KeepOne(cs[0]) + Keep(cs[1..])
  }

  /** The parts of a path: its kept components. */
  function Parts(s: string): seq<string>
  {
    Keep(SplitSlash(s))
  }

  /** The root of a POSIX path: exactly two leading slashes stay "//", one or three and more are "/". */
  function Root(s: string): string
  {
    if |s| >= 2 && s[0] == '/' && s[1] == '/' && (|s| == 2 || s[2] != '/') then "//"
    else if |s| >= 1 && s[0] == '/' then "/"
    else ""
  }

  /** `"/".join(ps)`. */
  function JoinSlash(ps: seq<string>): string
    decreases |ps|
  {
    if ps == [] then ""
    else if |ps| == 1 then ps[0]
    else ps[0] + "/" + JoinSlash(ps[1..])
  }

  /** `str(Path(s))`. */
  function Normalise(s: string): string
  {
    if Root(s) == "" && Parts(s) == [] then "." else Root(s) + JoinSlash(Parts(s))
  }

  /** `Path(s).name`: the last part, or empty for "", ".", "/" and the like. */
  function Name(s: string): string
  {
    if Parts(s) == [] then "" else Parts(s)[|Parts(s)| - 1]
  }

  /**
   * The path `save_json` writes to and returns: `str(Path(filepath))`, or
   * with ".gz" added after its suffix when compressing (the name's stem and
   * suffix put back together with ".gz"); a path without a name cannot take a
   * suffix (ValueError).
   */
  function SaveJsonPath(filepath: string, compress: Option<bool>, useCompression: bool,
                        sizeBytes: nat, maxFileSizeMb: int): (r: Outcome<string>)
    ensures !ShouldCompress(compress, useCompression, sizeBytes, maxFileSizeMb) ==> r == Ok(Normalise(filepath))
    ensures ShouldCompress(compress, useCompression, sizeBytes, maxFileSizeMb) ==>
              (r.Raise? <==> Name(filepath) == "") &&
              (r.Raise? ==> r.exc == ValueError) &&
              (r.Ok? ==> r.value == Normalise(filepath) + ".gz")
  {
    if !ShouldCompress(compress, useCompression, sizeBytes, maxFileSizeMb) then Ok(Normalise(filepath))
    else if Name(filepath) == "" then Raise(ValueError)
    else Ok(Normalise(filepath) + ".gz")
  }

  /** A join of a piece and at least one more: the piece, a '/', the rest's join. */
  lemma JoinCons(p: string, ps: seq<string>)
    requires ps != []
    ensures JoinSlash([p] + ps) == p + "/" + JoinSlash(ps)
  {
    assert ([p] + ps)[1..] == ps;
  }

  /** A leading character can move in or out of a join's first piece. */
  lemma LeadingCharAssoc(c: char, a: string, j: string)
    ensures ([c] + a) + "/" + j == [c] + (a + "/" + j)
  {
  }

  /** A character other than '/' in front of a split of two or more pieces joins the first one. */
  lemma JoinAddPlainChar(c: char, l: seq<string>)
    requires |l| > 1 && c != '/'
    ensures JoinSlash(AddChar(c, l)) == [c] + JoinSlash(l)
  {
    var j := JoinSlash(l[1..]);
    var p := [c] + l[0];
    assert AddChar(c, l) == [p] + l[1..];
    JoinCons(p, l[1..]);
    assert JoinSlash(l) == l[0] + "/" + j;
    LeadingCharAssoc(c, l[0], j);
  }

  /** A '/' in front of a split opens an empty first piece. */
  lemma JoinAddSlash(l: seq<string>)
    requires |l| >= 1
    ensures JoinSlash(AddChar('/', l)) == ['/'] + JoinSlash(l)
  {
    var j := JoinSlash(l);
    JoinCons("", l);
    assert AddChar('/', l) == [""] + l;
    assert "" + "/" + j == ['/'] + j;
  }

  /** A character other than '/' in front of a single piece extends it. */
  lemma JoinAddCharOne(c: char, l: seq<string>)
    requires |l| == 1 && c != '/'
    ensures JoinSlash(AddChar(c, l)) == [c] + JoinSlash(l)
  {
    assert AddChar(c, l) == [[c] + l[0]];
    assert JoinSlash(l) == l[0];
  }

  /** A character in front of a split is a character in front of its join. */
  lemma JoinAddChar(c: char, l: seq<string>)
    requires |l| >= 1
    ensures JoinSlash(AddChar(c, l)) == [c] + JoinSlash(l)
  {
    if c == '/' {
      JoinAddSlash(l);
    } else if |l| == 1 {
      JoinAddCharOne(c, l);
    } else {
      JoinAddPlainChar(c, l);
    }
  }

  /** Joining the pieces of a split gives the text back. */
  lemma {:induction false} JoinSplit(s: string)
    ensures JoinSlash(SplitSlash(s)) == s
    decreases |s|
  {
    if s != [] {
      JoinSplit(s[1..]);
      JoinAddChar(s[0], SplitSlash(s[1..]));
      assert s == [s[0]] + s[1..];
    }
  }

  /** No piece of a split holds a '/'. */
  lemma {:induction false} SplitPiecesFree(s: string)
    ensures forall k :: 0 <= k < |SplitSlash(s)| ==> '/' !in SplitSlash(s)[k]
    decreases |s|
  {
    if s != [] {
      SplitPiecesFree(s[1..]);
    }
  }

  /** A text without '/' is one piece, and a '/' after it starts the next. */
  lemma {:induction false} SplitAfterPiece(a: string, b: string)
    requires '/' !in a
    ensures SplitSlash(a) == [a]
    ensures SplitSlash(a + "/" + b) == [a] + SplitSlash(b)
    decreases |a|
  {
    if a != [] {
      SplitAfterPiece(a[1..], b);
      assert [a[0]] + a[1..] == a;
    }
    SplitConcat(a, b);
  }

  /** Splitting a join of slash-free pieces gives the pieces back. */
  lemma {:induction false} SplitJoin(ps: seq<string>)
    requires ps != []
    requires forall k :: 0 <= k < |ps| ==> '/' !in ps[k]
    ensures SplitSlash(JoinSlash(ps)) == ps
    decreases |ps|
  {
    if |ps| == 1 {
      SplitAfterPiece(ps[0], "");
    } else {
      SplitJoin(ps[1..]);
      SplitAfterPiece(ps[0], JoinSlash(ps[1..]));
      assert ps == [ps[0]] + ps[1..];
    }
  }

  /** Keep keeps exactly the parts, in order. */
  lemma {:induction false} KeepParts(cs: seq<string>)
    requires forall k :: 0 <= k < |cs| ==> '/' !in cs[k]
    ensures forall k :: 0 <= k < |Keep(cs)| ==> IsPart(Keep(cs)[k])
    ensures (forall k :: 0 <= k < |cs| ==> IsPart(cs[k])) ==> Keep(cs) == cs
    decreases |cs|
  {
    if cs != [] {
      KeepParts(cs[1..]);
      assert cs == [cs[0]] + cs[1..];
    }
  }

  /** Keep drops what it dropped before: it is idempotent over a concatenation. */
  lemma {:induction false} KeepAppend(a: seq<string>, b: seq<string>)
    ensures Keep(a + b) == Keep(a) + Keep(b)
    decreases |a|
  {
    if a == [] {
      assert a + b == b;
    } else {
      var c := a + b;
      assert c[0] == a[0] && c[1..] == a[1..] + b;
      KeepAppend(a[1..], b);
    }
  }

  /** Every part of a path is a kept component. */
  lemma PartsArePart(s: string)
    ensures forall k :: 0 <= k < |Parts(s)| ==> IsPart(Parts(s)[k])
  {
    SplitPiecesFree(s);
    KeepParts(SplitSlash(s));
  }

  /** The parts of a join of parts are those parts. */
  lemma PartsOfJoin(ps: seq<string>)
    requires ps != []
    requires forall k :: 0 <= k < |ps| ==> IsPart(ps[k])
    ensures Parts(JoinSlash(ps)) == ps
    ensures JoinSlash(ps) != [] && JoinSlash(ps)[0] != '/'
  {
    SplitJoin(ps);
    KeepParts(ps);
    JoinHead(ps);
  }

  /** A join of non-empty pieces starts with the first piece's first character. */
  lemma JoinHead(ps: seq<string>)
    requires ps != [] && ps[0] != []
    ensures JoinSlash(ps) != [] && JoinSlash(ps)[0] == ps[0][0]
  {
  }

  /** The parts below a root are the parts of what follows it. */
  lemma {:induction false} PartsUnderRoot(root: string, j: string)
    requires root == "/" || root == "//"
    ensures Parts(root + j) == Parts(j)
  {
    if root == "/" {
      assert ("/" + j)[1..] == j;
      assert SplitSlash("/" + j) == [""] + SplitSlash(j);
      KeepAppend([""], SplitSlash(j));
    } else {
      assert ("//" + j)[1..] == "/" + j;
      assert ("/" + j)[1..] == j;
      assert SplitSlash("//" + j) == [""] + ([""] + SplitSlash(j));
      KeepAppend([""], [""] + SplitSlash(j));
      KeepAppend([""], SplitSlash(j));
    }
  }

  /** "." keeps the empty root and no parts. */
  lemma NormaliseKeepsEmpty(s: string)
    requires Root(s) == "" && Parts(s) == []
    ensures Root(Normalise(s)) == Root(s) && Parts(Normalise(s)) == Parts(s)
  {
    assert Normalise(s) == ".";
    SplitAfterPiece(".", "");
  }

  /** A bare root keeps itself and no parts. */
  lemma NormaliseKeepsRoot(s: string)
    requires Root(s) != "" && Parts(s) == []
    ensures Root(Normalise(s)) == Root(s) && Parts(Normalise(s)) == Parts(s)
  {
    assert Normalise(s) == Root(s) + "";
    assert Root(s) + "" == Root(s);
    PartsUnderRoot(Root(s), "");
    assert SplitSlash("") == [""];
  }

  /** A root followed by parts keeps both. */
  lemma NormaliseKeepsParts(s: string)
    requires Parts(s) != []
    ensures Root(Normalise(s)) == Root(s) && Parts(Normalise(s)) == Parts(s)
  {
    var root, ps := Root(s), Parts(s);
    PartsArePart(s);
    PartsOfJoin(ps);
    var j := JoinSlash(ps);
    assert Normalise(s) == root + j;
    if root != "" {
      PartsUnderRoot(root, j);
    } else {
      assert root + j == j;
    }
  }

  /** A normalised path keeps the root and the parts of the original. */
  lemma NormaliseKeeps(s: string)
    ensures Root(Normalise(s)) == Root(s)
    ensures Parts(Normalise(s)) == Parts(s)
  {
    if Parts(s) != [] {
      NormaliseKeepsParts(s);
    } else if Root(s) == "" {
      NormaliseKeepsEmpty(s);
    } else {
      NormaliseKeepsRoot(s);
    }
  }

  /** `str(Path(str(Path(s))))` is `str(Path(s))`: normalising twice changes nothing. */
  lemma NormaliseIdempotent(s: string)
    ensures Normalise(Normalise(s)) == Normalise(s)
  {
    NormaliseKeeps(s);
  }

  /** A relative path whose every component is a plain name is printed as given. */
  lemma PlainPathUnchanged(s: string)
    requires s != []
    requires forall k :: 0 <= k < |SplitSlash(s)| ==> IsPart(SplitSlash(s)[k])
    ensures Normalise(s) == s
  {
    SplitPiecesFree(s);
    KeepParts(SplitSlash(s));
    JoinSplit(s);
    assert Parts(s) == SplitSlash(s);
    JoinHead(SplitSlash(s));
  }

  /** The name is a part, and the compressed path ends in that name plus ".gz". */
  lemma CompressedEndsWithName(s: string)
    requires Name(s) != ""
    ensures IsPart(Name(s))
    ensures |Normalise(s)| >= |Name(s)|
    ensures Normalise(s)[|Normalise(s)| - |Name(s)|..] == Name(s)
  {
    PartsArePart(s);
    JoinLast(Parts(s));
  }

  /** A join ends with its last piece. */
  lemma {:induction false} JoinLast(ps: seq<string>)
    requires ps != []
    ensures |JoinSlash(ps)| >= |ps[|ps| - 1]|
    ensures JoinSlash(ps)[|JoinSlash(ps)| - |ps[|ps| - 1]|..] == ps[|ps| - 1]
    decreases |ps|
  {
    if |ps| > 1 {
      JoinLast(ps[1..]);
      var tail := JoinSlash(ps[1..]);
      assert JoinSlash(ps) == (ps[0] + "/") + tail;
    }
  }

  /** A character in front of a split only touches its first piece. */
  lemma AddCharAppend(c: char, l: seq<string>, r: seq<string>)
    requires |l| >= 1
    ensures AddChar(c, l + r) == AddChar(c, l) + r
  {
    if c != '/' {
      assert (l + r)[1..] == l[1..] + r;
    }
  }

  /** Splitting at a '/' splits the two sides apart. */
  lemma {:induction false} SplitConcat(s: string, t: string)
    ensures SplitSlash(s + "/" + t) == SplitSlash(s) + SplitSlash(t)
    decreases |s|
  {
    var u := s + "/" + t;
    if s == [] {
      assert u == "/" + t && u[1..] == t;
    } else {
      assert u[0] == s[0] && u[1..] == s[1..] + "/" + t;
      SplitConcat(s[1..], t);
      AddCharAppend(s[0], SplitSlash(s[1..]), SplitSlash(t));
    }
  }

  /** The parts of a path are read component by component: a '/' joins the parts of both sides. */
  lemma PartsConcat(s: string, t: string)
    ensures Parts(s + "/" + t) == Parts(s) + Parts(t)
  {
    SplitConcat(s, t);
    KeepAppend(SplitSlash(s), SplitSlash(t));
  }

  /** An empty component and a "." component have no parts. */
  lemma EmptyAndDotHaveNoParts()
    ensures Parts("") == [] && Parts(".") == []
  {
    SplitAfterPiece(".", "");
    assert SplitSlash("") == [""];
  }

  /** `save_json` sees a path only through its root and its parts. */
  lemma SameRootSameParts(a: string, b: string, compress: Option<bool>, useCompression: bool,
                          sizeBytes: nat, maxFileSizeMb: int)
    requires Root(a) == Root(b) && Parts(a) == Parts(b)
    ensures SaveJsonPath(a, compress, useCompression, sizeBytes, maxFileSizeMb) ==
            SaveJsonPath(b, compress, useCompression, sizeBytes, maxFileSizeMb)
  {
    assert Normalise(a) == Normalise(b) && Name(a) == Name(b);
  }

  /** A doubled '/' adds only an empty component. */
  lemma DoubledSlashParts(s: string, t: string)
    ensures Parts(s + "//" + t) == Parts(s + "/" + t)
  {
    EmptyAndDotHaveNoParts();
    assert s + "//" + t == s + "/" + ("" + "/" + t);
    PartsConcat(s, "" + "/" + t);
    PartsConcat("", t);
    PartsConcat(s, t);
  }

  /** A trailing '/' or "/." adds only an empty or a "." component. */
  lemma TrailingParts(s: string)
    ensures Parts(s + "/") == Parts(s)
    ensures Parts(s + "/.") == Parts(s)
  {
    EmptyAndDotHaveNoParts();
    assert s + "/" == s + "/" + "";
    assert s + "/." == s + "/" + ".";
    PartsConcat(s, "");
    PartsConcat(s, ".");
    assert Parts(s) + [] == Parts(s);
  }

  /**
   * Redundant separators change nothing `save_json` returns: a doubled '/',
   * a trailing '/' and a trailing "/." (for a relative path with a first
   * component; a leading '/' would change the root).
   */
  lemma RedundantSeparatorsIgnored(s: string, t: string, compress: Option<bool>, useCompression: bool,
                                   sizeBytes: nat, maxFileSizeMb: int)
    requires s != [] && s[0] != '/'
    ensures SaveJsonPath(s + "//" + t, compress, useCompression, sizeBytes, maxFileSizeMb) ==
            SaveJsonPath(s + "/" + t, compress, useCompression, sizeBytes, maxFileSizeMb)
    ensures SaveJsonPath(s + "/", compress, useCompression, sizeBytes, maxFileSizeMb) ==
            SaveJsonPath(s, compress, useCompression, sizeBytes, maxFileSizeMb)
    ensures SaveJsonPath(s + "/.", compress, useCompression, sizeBytes, maxFileSizeMb) ==
            SaveJsonPath(s, compress, useCompression, sizeBytes, maxFileSizeMb)
  {
    DoubledSlashParts(s, t);
    TrailingParts(s);
    assert (s + "//" + t)[0] == s[0] && (s + "/" + t)[0] == s[0];
    assert (s + "/")[0] == s[0] && (s + "/.")[0] == s[0];
    SameRootSameParts(s + "//" + t, s + "/" + t, compress, useCompression, sizeBytes, maxFileSizeMb);
    SameRootSameParts(s + "/", s, compress, useCompression, sizeBytes, maxFileSizeMb);
    SameRootSameParts(s + "/.", s, compress, useCompression, sizeBytes, maxFileSizeMb);
  }

  /** A leading "./" changes nothing `save_json` returns, for a relative remainder. */
  lemma LeadingDotIgnored(t: string, compress: Option<bool>, useCompression: bool,
                          sizeBytes: nat, maxFileSizeMb: int)
    requires t != [] && t[0] != '/'
    ensures SaveJsonPath("./" + t, compress, useCompression, sizeBytes, maxFileSizeMb) ==
            SaveJsonPath(t, compress, useCompression, sizeBytes, maxFileSizeMb)
  {
    EmptyAndDotHaveNoParts();
    assert "./" + t == "." + "/" + t;
    PartsConcat(".", t);
    assert [] + Parts(t) == Parts(t);
    assert ("./" + t)[0] == '.';
    SameRootSameParts("./" + t, t, compress, useCompression, sizeBytes, maxFileSizeMb);
  }

  /** Only a path without a name refuses the suffix: "", "." and "/". */
  lemma NamelessRefused()
    ensures SaveJsonPath("", Some(true), false, 0, 0) == Raise(ValueError)
    ensures SaveJsonPath(".", Some(true), false, 0, 0) == Raise(ValueError)
    ensures SaveJsonPath("/", Some(true), false, 0, 0) == Raise(ValueError)
  {
    SplitAfterPiece(".", "");
    SplitAfterPiece("", "");
    assert "/" == "" + "/" + "";
  }

  // ---------------------------------------------------------------------
  // stream_json_array

  /** The scanner's variables, and what it has yielded so far. */
  datatype ScanState = ScanState(buffer: string, depth: int, inString: bool, escapeNext: bool,
                                 itemStart: Option<nat>, items: seq<JSON>)

  const Start: ScanState := ScanState("", 0, false, false, None, [])

  /** A state between items: outside strings, at depth 0, with no pending escape or item. */
  predicate AtRest(st: ScanState)
  {
    st.depth == 0 && !st.inString && !st.escapeNext && st.itemStart.None?
  }

  /** What a candidate adds to the output: its decoded value, or nothing when json.loads rejects it. */
  function Loaded(v: Option<JSON>): seq<JSON>
  {
    if v.Some? then [v.value] else []
  }

  /**
   * One character of the scanner.  `loads` is json.loads (None for a
   * JSONDecodeError).  With `cutAtFirst` the candidate is cut at its first '}'
   * as the code does; without it the candidate is the whole text from the
   * opening brace.
   */
  function Step(st: ScanState, c: char, loads: string -> Option<JSON>, cutAtFirst: bool): ScanState
  {
    var buf := st.buffer + [c];
    if st.escapeNext then st.(buffer := buf, escapeNext := false)
    else if c == '\\' then st.(buffer := buf, escapeNext := true)
    else if c == '"' then st.(buffer := buf, inString := !st.inString)
    else if st.inString then st.(buffer := buf)
    else if c == '{' then
      st.(buffer := buf, itemStart := if st.depth == 0 then Some(|buf| - 1) else st.itemStart, depth := st.depth + 1)
    else if c == '}' then
      if st.depth - 1 == 0 && st.itemStart.Some? then Close(buf, st.itemStart.value, st.items, loads, cutAtFirst)
      else st.(buffer := buf, depth := st.depth - 1)
    else st.(buffer := buf)
  }

  /**
   * The brace that brings the depth back to 0: the candidate from `start` is
   * cut, handed to json.loads, and the buffer keeps what follows the cut.
   */
  function Close(buf: string, start: nat, items: seq<JSON>, loads: string -> Option<JSON>, cutAtFirst: bool): ScanState
  {
    var candidate := Slice(buf, start, |buf|);
    var endPos := if cutAtFirst then Find(candidate, "}", 0) + 1 else |candidate|;
    var item := Slice(candidate, 0, endPos);
    ScanState(Slice(buf, start + endPos, |buf|), 0, false, false, None, items + Loaded(loads(item)))
  }

  /** The scanner run over `s` from `st`. */
  function Scan(st: ScanState, s: string, loads: string -> Option<JSON>, cutAtFirst: bool): ScanState
    decreases |s|
  {
    if s == [] then st else Step(Scan(st, s[..|s| - 1], loads, cutAtFirst), s[|s| - 1], loads, cutAtFirst)
  }

  /**
   * `stream_json_array` over the file's text: the items it yields, in order.
   */
  method StreamJsonArray(content: string, loads: string -> Option<JSON>) returns (items: seq<JSON>)
    ensures items == Scan(Start, content, loads, true).items
  {
    var buffer := "";
    var bracketCount := 0;
    var inString := false;
    var escapeNext := false;
    var itemStart: Option<nat> := None;
    items := [];
    for i := 0 to |content|
      invariant ScanState(buffer, bracketCount, inString, escapeNext, itemStart, items) ==
                Scan(Start, content[..i], loads, true)
    {
      var c := content[i];
      ghost var before := ScanState(buffer, bracketCount, inString, escapeNext, itemStart, items);
      ScanSnoc(content, i, loads, true);
      buffer := buffer + [c];
      if escapeNext {
        escapeNext := false;
      } else if c == '\\' {
        escapeNext := true;
      } else if c == '"' {
        inString := !inString;
      } else if inString {
      } else if c == '{' {
        if bracketCount == 0 {
          itemStart := Some(|buffer| - 1);
        }
        bracketCount := bracketCount + 1;
      } else if c == '}' {
        bracketCount := bracketCount - 1;
        if bracketCount == 0 && itemStart.Some? {
          var start := itemStart.value;
          var itemJson := Slice(buffer, start, |buffer|);
          var endPos := Find(itemJson, "}", 0) + 1;
          itemJson := Slice(itemJson, 0, endPos);
          match loads(itemJson) {
            case Some(v) => items := items + [v];
            case None =>
          }
          buffer := Slice(buffer, start + endPos, |buffer|);
          itemStart := None;
          assert items == before.items + Loaded(loads(itemJson));
        }
      }
      assert ScanState(buffer, bracketCount, inString, escapeNext, itemStart, items) == Step(before, c, loads, true);
    }
    assert content[..|content|] == content;
  }

  /** The scan of one more character is one more step. */
  lemma ScanSnoc(content: string, i: nat, loads: string -> Option<JSON>, cut: bool)
    requires i < |content|
    ensures Scan(Start, content[..i + 1], loads, cut) == Step(Scan(Start, content[..i], loads, cut), content[i], loads, cut)
  {
    assert content[..i + 1][..i] == content[..i];
  }

  lemma {:induction false} ScanConcat(st: ScanState, a: string, b: string, loads: string -> Option<JSON>, cut: bool)
    ensures Scan(st, a + b, loads, cut) == Scan(Scan(st, a, loads, cut), b, loads, cut)
    decreases |b|
  {
    if b == [] {
      assert a + b == a;
    } else {
      assert (a + b)[..|a + b| - 1] == a + b[..|b| - 1];
      ScanConcat(st, a, b[..|b| - 1], loads, cut);
    }
  }

  /** A backslash, inside or outside a string, makes the next character count for nothing. */
  lemma EscapeSkipsNext(st: ScanState, c: char, loads: string -> Option<JSON>, cut: bool)
    requires !st.escapeNext
    ensures Scan(st, ['\\', c], loads, cut) == st.(buffer := st.buffer + ['\\', c])
  {
    assert ['\\', c][..1] == ['\\'];
    ScanOne(st, '\\', loads, cut);
  }

  /** A double quote toggles the in-string flag and nothing else. */
  lemma QuoteToggles(st: ScanState, loads: string -> Option<JSON>, cut: bool)
    requires !st.escapeNext
    ensures Step(st, '"', loads, cut) == st.(buffer := st.buffer + ['"'], inString := !st.inString)
  {
  }

  /** Inside a string, braces and every other character but '"' and '\\' leave depth and item start alone. */
  lemma InsideStringIgnored(st: ScanState, c: char, loads: string -> Option<JSON>, cut: bool)
    requires !st.escapeNext && st.inString && c != '"' && c != '\\'
    ensures Step(st, c, loads, cut) == st.(buffer := st.buffer + [c])
  {
  }

  /** Text with no brace and no backslash. */
  predicate Plain(s: string)
  {
    forall i :: 0 <= i < |s| ==> s[i] != '{' && s[i] != '}' && s[i] != '\\'
  }

  /** Whether `s` holds an odd number of double quotes. */
  function OddQuotes(s: string): bool
    decreases |s|
  {
    if s == [] then false else OddQuotes(s[..|s| - 1]) != (s[|s| - 1] == '"')
  }

  /** Plain text only grows the buffer and flips the string flag once per quote. */
  lemma {:induction false} ScanPlain(st: ScanState, s: string, loads: string -> Option<JSON>, cut: bool)
    requires !st.escapeNext && Plain(s)
    ensures Scan(st, s, loads, cut) == st.(buffer := st.buffer + s, inString := st.inString != OddQuotes(s))
    decreases |s|
  {
    if s != [] {
      var init := s[..|s| - 1];
      assert Plain(init) by {
        forall i | 0 <= i < |init| ensures init[i] != '{' && init[i] != '}' && init[i] != '\\' {
          assert init[i] == s[i];
        }
      }
      ScanPlain(st, init, loads, cut);
      assert st.buffer + init + [s[|s| - 1]] == st.buffer + s;
    }
  }

  /** The first '}' of "{" + a + "}" + rest, for plain a, is right after a. */
  lemma FirstCloseAfterPlain(a: string, rest: string)
    requires Plain(a)
    ensures Find("{" + a + "}" + rest, "}", 0) == |a| + 1
  {
    var t := "{" + a + "}" + rest;
    assert OccursAt(t, "}", |a| + 1) by { assert t[|a| + 1..|a| + 2] == "}"; }
    forall p | 0 <= p < |a| + 1 ensures !OccursAt(t, "}", p) {
      assert t[p] != '}' by {
        if p > 0 { assert t[p] == a[p - 1]; }
      }
      assert p + 1 <= |t| ==> t[p..p + 1] == [t[p]];
    }
  }

  /** The first closing brace inside a nested object. */
  lemma FirstCloseNested(a: string, b: string, c: string)
    requires Plain(a) && Plain(b)
    ensures Find("{" + a + "{" + b + "}" + c + "}", "}", 0) == |a| + |b| + 2
  {
    var t := "{" + a + "{" + b + "}" + c + "}";
    var n := |a| + |b| + 2;
    assert OccursAt(t, "}", n) by { assert t[n..n + 1] == "}"; }
    forall p | 0 <= p < n ensures !OccursAt(t, "}", p) {
      assert t[p] != '}' by {
        if 0 < p <= |a| { assert t[p] == a[p - 1]; }
        if |a| + 1 < p { assert t[p] == b[p - |a| - 2]; }
      }
      assert p + 1 <= |t| ==> t[p..p + 1] == [t[p]];
    }
  }

  lemma ScanOne(st: ScanState, c: char, loads: string -> Option<JSON>, cut: bool)
    ensures Scan(st, [c], loads, cut) == Step(st, c, loads, cut)
  {
    assert [c][..0] == [];
  }

  /** An opening brace between items starts a candidate at that brace. */
  lemma OpenAtRest(st: ScanState, loads: string -> Option<JSON>, cut: bool)
    requires AtRest(st)
    ensures Step(st, '{', loads, cut) == st.(buffer := st.buffer + "{", depth := 1, itemStart := Some(|st.buffer|))
  {
  }

  /** A candidate ending in a closing brace is cut inside itself, after at least one character. */
  lemma CutWithin(candidate: string, cut: bool)
    requires 0 < |candidate| && OccursAt(candidate, "}", |candidate| - 1)
    ensures var endPos := if cut then Find(candidate, "}", 0) + 1 else |candidate|;
            0 < endPos <= |candidate|
  {
  }

  /** A closing brace that brings the depth back to 0 hands the candidate to json.loads. */
  lemma CloseItem(st: ScanState, loads: string -> Option<JSON>, cut: bool)
    requires st.depth == 1 && !st.inString && !st.escapeNext && st.itemStart.Some? && st.itemStart.value <= |st.buffer|
    ensures var buf := st.buffer + "}";
            var candidate := buf[st.itemStart.value..];
            var endPos := if cut then Find(candidate, "}", 0) + 1 else |candidate|;
            0 < endPos <= |candidate| &&
            Step(st, '}', loads, cut) ==
              ScanState(buf[st.itemStart.value + endPos..], 0, false, false, None,
                        st.items + Loaded(loads(candidate[..endPos])))
  {
    var buf := st.buffer + "}";
    assert Step(st, '}', loads, cut) == Close(buf, st.itemStart.value, st.items, loads, cut);
    CloseCut(buf, st.itemStart.value, st.items, loads, cut);
  }

  /** Close over a buffer that ends in the closing brace, with the slices written out. */
  lemma CloseCut(buf: string, start: nat, items: seq<JSON>, loads: string -> Option<JSON>, cut: bool)
    requires start < |buf| && buf[|buf| - 1] == '}'
    ensures var candidate := buf[start..];
            var endPos := if cut then Find(candidate, "}", 0) + 1 else |candidate|;
            0 < endPos <= |candidate| &&
            Close(buf, start, items, loads, cut) ==
              ScanState(buf[start + endPos..], 0, false, false, None, items + Loaded(loads(candidate[..endPos])))
  {
    var candidate := buf[start..];
    assert OccursAt(candidate, "}", |candidate| - 1) by {
      assert candidate[|candidate| - 1..] == "}";
    }
    CutWithin(candidate, cut);
    var endPos := if cut then Find(candidate, "}", 0) + 1 else |candidate|;
    assert Slice(buf, start, |buf|) == candidate;
    assert Slice(candidate, 0, endPos) == candidate[..endPos];
    assert Slice(buf, start + endPos, |buf|) == buf[start + endPos..];
  }

  /** Closing a candidate that starts right after `x` and whose first cut falls after `head`. */
  lemma CloseAt(s: ScanState, x: string, head: string, tail: string, loads: string -> Option<JSON>, cut: bool)
    requires s.depth == 1 && !s.inString && !s.escapeNext && s.itemStart == Some(|x|)
    requires s.buffer + "}" == x + (head + tail) && 0 < |head|
    requires (if cut then Find(head + tail, "}", 0) + 1 else |head + tail|) == |head|
    ensures Step(s, '}', loads, cut) == ScanState(tail, 0, false, false, None, s.items + Loaded(loads(head)))
  {
    CloseItem(s, loads, cut);
    Halves(x, head + tail);
    Halves(head, tail);
    Assoc(x, head, tail);
    Halves(x + head, tail);
  }

  /** After an opening brace and plain text between items, the candidate is open at that brace. */
  lemma OpenPlain(st: ScanState, body: string, loads: string -> Option<JSON>, cut: bool)
    requires AtRest(st) && Plain(body) && !OddQuotes(body)
    ensures Scan(st, "{" + body, loads, cut) ==
            st.(buffer := st.buffer + "{" + body, depth := 1, itemStart := Some(|st.buffer|))
  {
    ScanConcat(st, "{", body, loads, cut);
    ScanOne(st, '{', loads, cut);
    OpenAtRest(st, loads, cut);
    var s1 := st.(buffer := st.buffer + "{", depth := 1, itemStart := Some(|st.buffer|));
    ScanPlain(s1, body, loads, cut);
  }

  /** A flat object between items is yielded exactly as written, either way the candidate is cut. */
  lemma FlatObject(st: ScanState, body: string, loads: string -> Option<JSON>, cut: bool)
    requires AtRest(st) && Plain(body) && !OddQuotes(body)
    ensures Scan(st, "{" + body + "}", loads, cut) ==
            ScanState("", 0, false, false, None, st.items + Loaded(loads("{" + body + "}")))
  {
    ScanConcat(st, "{" + body, "}", loads, cut);
    OpenPlain(st, body, loads, cut);
    var s2 := st.(buffer := st.buffer + "{" + body, depth := 1, itemStart := Some(|st.buffer|));
    ScanOne(s2, '}', loads, cut);
    var obj := "{" + body + "}";
    assert obj + "" == obj;
    Assoc(st.buffer, "{", body);
    Assoc(st.buffer, "{" + body, "}");
    assert s2.buffer + "}" == st.buffer + (obj + "");
    FirstCloseAfterPlain(body, "");
    CloseAt(s2, st.buffer, obj, "", loads, cut);
  }

  /** The state after "{" + a + "{" + b + "}" + c, for plain balanced parts: depth 1, candidate open. */
  lemma ScanNestedPrefix(st: ScanState, a: string, b: string, c: string, loads: string -> Option<JSON>, cut: bool)
    requires AtRest(st) && Plain(a) && Plain(b) && Plain(c)
    requires !OddQuotes(a) && !OddQuotes(b) && !OddQuotes(c)
    ensures Scan(st, "{" + a + "{" + b + "}" + c, loads, cut) ==
            st.(buffer := st.buffer + "{" + a + "{" + b + "}" + c, depth := 1, itemStart := Some(|st.buffer|))
  {
    var k := |st.buffer|;
    ScanConcat(st, "{", a, loads, cut);
    ScanConcat(st, "{" + a, "{", loads, cut);
    ScanConcat(st, "{" + a + "{", b, loads, cut);
    ScanConcat(st, "{" + a + "{" + b, "}", loads, cut);
    ScanConcat(st, "{" + a + "{" + b + "}", c, loads, cut);
    ScanOne(st, '{', loads, cut);
    OpenAtRest(st, loads, cut);
    var s1 := st.(buffer := st.buffer + "{", depth := 1, itemStart := Some(k));
    ScanPlain(s1, a, loads, cut);
    var s2 := s1.(buffer := st.buffer + "{" + a);
    ScanOne(s2, '{', loads, cut);
    var s3 := s2.(buffer := st.buffer + "{" + a + "{", depth := 2);
    ScanPlain(s3, b, loads, cut);
    var s4 := s3.(buffer := st.buffer + "{" + a + "{" + b);
    ScanOne(s4, '}', loads, cut);
    var s5 := s4.(buffer := st.buffer + "{" + a + "{" + b + "}", depth := 1);
    ScanPlain(s5, c, loads, cut);
  }

  lemma NestedAssoc(x: string, a: string, b: string, c: string)
    ensures x + "{" + a + "{" + b + "}" + c == x + ("{" + a + "{" + b + "}" + c)
  {
  }

  lemma Assoc(x: string, y: string, z: string)
    ensures x + y + z == x + (y + z)
  {
  }

  lemma Halves(x: string, y: string)
    ensures (x + y)[..|x|] == x && (x + y)[|x|..] == y
  {
  }

  /** The text after `pre` is a closing brace that ends the candidate the scanner opened at the start of `pre`. */
  lemma CloseAfter(st: ScanState, a: string, b: string, c: string, loads: string -> Option<JSON>, cut: bool)
    requires AtRest(st) && Plain(a) && Plain(b) && Plain(c)
    requires !OddQuotes(a) && !OddQuotes(b) && !OddQuotes(c)
    ensures var pre := "{" + a + "{" + b + "}" + c;
            var s := st.(buffer := st.buffer + pre, depth := 1, itemStart := Some(|st.buffer|));
            Scan(st, pre + "}", loads, cut) == Step(s, '}', loads, cut)
  {
    var pre := "{" + a + "{" + b + "}" + c;
    var s := st.(buffer := st.buffer + pre, depth := 1, itemStart := Some(|st.buffer|));
    ScanConcat(st, pre, "}", loads, cut);
    ScanNestedPrefix(st, a, b, c, loads, cut);
    NestedAssoc(st.buffer, a, b, c);
    ScanOne(s, '}', loads, cut);
  }

  /**
   * As written, an object holding an object is cut at the inner closing brace:
   * json.loads only sees "{" + a + "{" + b + "}", and the rest stays in the buffer.
   */
  lemma NestedObjectAsWritten(st: ScanState, a: string, b: string, c: string, loads: string -> Option<JSON>)
    requires AtRest(st) && Plain(a) && Plain(b) && Plain(c)
    requires !OddQuotes(a) && !OddQuotes(b) && !OddQuotes(c)
    ensures Scan(st, "{" + a + "{" + b + "}" + c + "}", loads, true) ==
            ScanState(c + "}", 0, false, false, None, st.items + Loaded(loads("{" + a + "{" + b + "}")))
  {
    var head := "{" + a + "{" + b + "}";
    var pre := head + c;
    var s := st.(buffer := st.buffer + pre, depth := 1, itemStart := Some(|st.buffer|));
    CloseAfter(st, a, b, c, loads, true);
    Assoc(st.buffer, pre, "}");
    Assoc(head, c, "}");
    FirstCloseNested(a, b, c);
    CloseAt(s, st.buffer, head, c + "}", loads, true);
  }

  /** Taking the whole candidate, the same input yields the whole object and leaves the buffer empty. */
  lemma NestedObjectCorrected(st: ScanState, a: string, b: string, c: string, loads: string -> Option<JSON>)
    requires AtRest(st) && Plain(a) && Plain(b) && Plain(c)
    requires !OddQuotes(a) && !OddQuotes(b) && !OddQuotes(c)
    ensures Scan(st, "{" + a + "{" + b + "}" + c + "}", loads, false) ==
            ScanState("", 0, false, false, None, st.items + Loaded(loads("{" + a + "{" + b + "}" + c + "}")))
  {
    var pre := "{" + a + "{" + b + "}" + c;
    var whole := pre + "}";
    var s := st.(buffer := st.buffer + pre, depth := 1, itemStart := Some(|st.buffer|));
    CloseAfter(st, a, b, c, loads, false);
    Assoc(st.buffer, pre, "}");
    assert whole + "" == whole;
    CloseAt(s, st.buffer, whole, "", loads, false);
  }

  // ---------------------------------------------------------------------
  // ChunkedProcessor.process_in_chunks

  /** What one chunk's result adds: a list's items, a truthy value itself, nothing for a falsy value or an exception. */
  function Contribution(o: Outcome<JSON>): (r: seq<JSON>)
    ensures o.Raise? || !Truthy(o.value) ==> r == []
    ensures o.Ok? && Truthy(o.value) && o.value.JArr? ==> r == o.value.items
    ensures o.Ok? && Truthy(o.value) && !o.value.JArr? ==> r == [o.value]
  {
    match o
    case Raise(_) => []
    case Ok(v) => if !Truthy(v) then [] else if v.JArr? then v.items else [v]
  }

  /** The consecutive slices of `chunkSize`; the last may be shorter. */
  function Chunks(data: seq<JSON>, chunkSize: nat): (cs: seq<seq<JSON>>)
    requires chunkSize > 0
    decreases |data|
  {
    if data == [] then []
    else if |data| <= chunkSize then [data]
    else [data[..chunkSize]] + Chunks(data[chunkSize..], chunkSize)
  }

  function Flatten(cs: seq<seq<JSON>>): seq<JSON>
  {
    if cs == [] then [] else cs[0] + Flatten(cs[1..])
  }

  /** The chunks cover the data, in order. */
  lemma {:induction false} ChunksCover(data: seq<JSON>, chunkSize: nat)
    requires chunkSize > 0
    ensures Flatten(Chunks(data, chunkSize)) == data
    decreases |data|
  {
    if data == [] {
    } else if |data| <= chunkSize {
      assert Flatten([data]) == data + Flatten([]);
    } else {
      var rest := data[chunkSize..];
      ChunksCover(rest, chunkSize);
      assert Chunks(data, chunkSize) == [data[..chunkSize]] + Chunks(rest, chunkSize);
      FlattenCons(data[..chunkSize], Chunks(rest, chunkSize));
      assert data == data[..chunkSize] + rest;
    }
  }

  lemma FlattenCons(c: seq<JSON>, cs: seq<seq<JSON>>)
    ensures Flatten([c] + cs) == c + Flatten(cs)
  {
    assert ([c] + cs)[1..] == cs;
  }

  lemma MulMono(a: int, b: int, d: int)
    requires d > 0 && a < b
    ensures a * d + d <= b * d
  {
    var k := b - a;
    assert k >= 1;
    assert k * d >= d by { assert k * d == (k - 1) * d + d; assert (k - 1) * d >= 0; }
    assert b * d == a * d + k * d;
  }
  lemma DivUnique(x: int, d: int, q: int, m: int)
    requires d > 0 && 0 <= m < d && x == q * d + m
    ensures x / d == q
  {
    var q' := x / d;
    var m' := x % d;
    assert x == q' * d + m';
    if q' < q { MulMono(q', q, d); }
    if q < q' { MulMono(q, q', d); }
  }
  lemma CeilStep(n: nat, d: nat)
    requires d > 0
    ensures (n + d + d - 1) / d == (n + d - 1) / d + 1
  {
    var q := (n + d - 1) / d;
    var m := (n + d - 1) % d;
    assert n + d - 1 == q * d + m;
    assert (q + 1) * d == q * d + d;
    DivUnique(n + d + d - 1, d, q + 1, m);
  }
  lemma CeilOne(n: nat, d: nat)
    requires 0 < n <= d
    ensures (n + d - 1) / d == 1
  {
    DivUnique(n + d - 1, d, 1, n - 1);
  }
  lemma CeilZero(d: nat)
    requires d > 0
    ensures (d - 1) / d == 0
  {
    DivUnique(d - 1, d, 0, d - 1);
  }

  /** There are ceil(len / chunkSize) chunks, the count the log line reports. */
  lemma {:induction false} ChunksCount(data: seq<JSON>, chunkSize: nat)
    requires chunkSize > 0
    ensures |Chunks(data, chunkSize)| == (|data| + chunkSize - 1) / chunkSize
    decreases |data|
  {
    if data == [] {
      CeilZero(chunkSize);
    } else if |data| <= chunkSize {
      CeilOne(|data|, chunkSize);
    } else {
      var rest := data[chunkSize..];
      ChunksCount(rest, chunkSize);
      CeilStep(|rest|, chunkSize);
    }
  }

  /** Every chunk is non-empty and at most chunkSize long, and all but the last are full. */
  lemma {:induction false} ChunksSizes(data: seq<JSON>, chunkSize: nat)
    requires chunkSize > 0
    ensures forall i :: 0 <= i < |Chunks(data, chunkSize)| ==> 0 < |Chunks(data, chunkSize)[i]| <= chunkSize
    ensures forall i :: 0 <= i < |Chunks(data, chunkSize)| - 1 ==> |Chunks(data, chunkSize)[i]| == chunkSize
    decreases |data|
  {
    if |data| > chunkSize {
      var rest := data[chunkSize..];
      ChunksSizes(rest, chunkSize);
      var cs := Chunks(data, chunkSize);
      assert cs[1..] == Chunks(rest, chunkSize);
      forall i | 1 <= i < |cs| ensures cs[i] == Chunks(rest, chunkSize)[i - 1] { }
    }
  }

  /** The combined results of processing the chunks in order. */
  function ChunkResults(chunks: seq<seq<JSON>>, processor: seq<JSON> -> Outcome<JSON>): seq<JSON>
  {
    if chunks == [] then [] else Contribution(processor(chunks[0])) + ChunkResults(chunks[1..], processor)
  }

  /** `data[i:]`, empty once i passes the end. */
  function Drop(data: seq<JSON>, i: nat): seq<JSON>
  {
    if i <= |data| then data[i..] else []
  }

  /** The chunks from position `i` on: the slice `data[i:i + chunkSize]`, then the chunks after it. */
  lemma ChunksFrom(data: seq<JSON>, chunkSize: nat, i: nat)
    requires chunkSize > 0 && i < |data|
    ensures var j := if i + chunkSize < |data| then i + chunkSize else |data|;
            Chunks(Drop(data, i), chunkSize) == [data[i..j]] + Chunks(Drop(data, i + chunkSize), chunkSize)
  {
    var j := if i + chunkSize < |data| then i + chunkSize else |data|;
    if |data[i..]| <= chunkSize {
      assert data[i..j] == data[i..];
      assert Drop(data, i + chunkSize) == [];
    } else {
      assert data[i..][..chunkSize] == data[i..j];
      assert data[i..][chunkSize..] == data[j..];
    }
  }

  /** The results from position `i` on: the chunk at i's contribution, then the rest. */
  lemma ResultsFrom(data: seq<JSON>, chunkSize: nat, i: nat, processor: seq<JSON> -> Outcome<JSON>)
    requires chunkSize > 0 && i < |data|
    ensures var j := if i + chunkSize < |data| then i + chunkSize else |data|;
            ChunkResults(Chunks(Drop(data, i), chunkSize), processor) ==
            Contribution(processor(data[i..j])) + ChunkResults(Chunks(Drop(data, i + chunkSize), chunkSize), processor)
  {
    ChunksFrom(data, chunkSize, i);
  }

  /**
   * `process_in_chunks`: ZeroDivisionError for a chunk size of 0 (the chunk
   * count is computed first); nothing for a negative size, whose range is
   * empty; otherwise the contributions of the chunks, in order.
   */
  method ProcessInChunks(data: seq<JSON>, chunkSize: int, processor: seq<JSON> -> Outcome<JSON>)
    returns (r: Outcome<seq<JSON>>)
    ensures r.Raise? <==> chunkSize == 0
    ensures r.Raise? ==> r.exc == ZeroDivisionError
    ensures chunkSize < 0 ==> r == Ok([])
    ensures chunkSize > 0 ==> r == Ok(ChunkResults(Chunks(data, chunkSize), processor))
  {
    if chunkSize == 0 {
      return Raise(ZeroDivisionError);
    }
    if chunkSize < 0 {
      return Ok([]);
    }
    var results := ProcessChunks(data, chunkSize, processor);
    return Ok(results);
  }

  /** The loop of `process_in_chunks` for a positive chunk size. */
  method ProcessChunks(data: seq<JSON>, chunkSize: nat, processor: seq<JSON> -> Outcome<JSON>)
    returns (results: seq<JSON>)
    requires chunkSize > 0
    ensures results == ChunkResults(Chunks(data, chunkSize), processor)
  {
    results := [];
    var i: nat := 0;
    assert Drop(data, 0) == data;
    while i < |data|
      invariant results + ChunkResults(Chunks(Drop(data, i), chunkSize), processor) ==
                ChunkResults(Chunks(data, chunkSize), processor)
      decreases |data| - i
    {
      var j := if i + chunkSize < |data| then i + chunkSize else |data|;
      var chunk := data[i..j];
      var chunkResult := processor(chunk);
      LoopStep(data, chunkSize, i, processor, results);
      results := results + Contribution(chunkResult);
      i := i + chunkSize;
    }
    LoopEnd(data, chunkSize, i, processor, results);
  }

  lemma LoopStep(data: seq<JSON>, chunkSize: nat, i: nat, processor: seq<JSON> -> Outcome<JSON>, results: seq<JSON>)
    requires chunkSize > 0 && i < |data|
    requires results + ChunkResults(Chunks(Drop(data, i), chunkSize), processor) ==
             ChunkResults(Chunks(data, chunkSize), processor)
    ensures var j := if i + chunkSize < |data| then i + chunkSize else |data|;
            (results + Contribution(processor(data[i..j]))) +
              ChunkResults(Chunks(Drop(data, i + chunkSize), chunkSize), processor) ==
            ChunkResults(Chunks(data, chunkSize), processor)
  {
    var j := if i + chunkSize < |data| then i + chunkSize else |data|;
    ResultsFrom(data, chunkSize, i, processor);
    JoinAssoc(results, Contribution(processor(data[i..j])),
              ChunkResults(Chunks(Drop(data, i + chunkSize), chunkSize), processor));
  }

  lemma JoinAssoc(x: seq<JSON>, y: seq<JSON>, z: seq<JSON>)
    ensures (x + y) + z == x + (y + z)
  {
  }

  lemma LoopEnd(data: seq<JSON>, chunkSize: nat, i: nat, processor: seq<JSON> -> Outcome<JSON>, results: seq<JSON>)
    requires chunkSize > 0 && i >= |data|
    requires results + ChunkResults(Chunks(Drop(data, i), chunkSize), processor) ==
             ChunkResults(Chunks(data, chunkSize), processor)
    ensures results == ChunkResults(Chunks(data, chunkSize), processor)
  {
    assert Drop(data, i) == [];
    assert results + [] == results;
  }

  /** A processor that returns its chunk gives back the data. */
  lemma IdentityProcessor(data: seq<JSON>, chunkSize: nat)
    requires chunkSize > 0
    ensures ChunkResults(Chunks(data, chunkSize), c => Ok(JArr(c))) == data
  {
    ChunksCover(data, chunkSize);
    ChunksSizes(data, chunkSize);
    IdentityResults(Chunks(data, chunkSize));
  }

  lemma {:induction false} IdentityResults(cs: seq<seq<JSON>>)
    requires forall i :: 0 <= i < |cs| ==> |cs[i]| > 0
    ensures ChunkResults(cs, c => Ok(JArr(c))) == Flatten(cs)
  {
    if cs != [] {
      IdentityResults(cs[1..]);
    }
  }
}
