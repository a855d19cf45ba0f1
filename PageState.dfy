// Locating the JSON state a TikTok page embeds in a `<script>` tag: the text
// after the first occurrence of the tag's opening marker, up to the first
// `</script>` that follows it.

module PageState {
  import opened Json

  const SigiMarker: string := "<script id=\"SIGI_STATE\" type=\"application/json\">"
  const UniversalMarker: string := "<script id=\"__UNIVERSAL_DATA_FOR_REHYDRATION__\" type=\"application/json\">"
  const ScriptEnd: string := "</script>"

  /** `json.loads`, abstract: None is a JSONDecodeError. */
  type Loads = string -> Option<JSON>

  /** Where the search for a marker's script text ends. */
  datatype Located = NoMarker | Unterminated | Text(s: string)

  /**
   * `start = page.find(marker)`; `start += len(marker)`;
   * `end = page.find("</script>", start)`; `page[start:end]`.
   */
  function Locate(page: string, marker: string): (r: Located)
    ensures r.NoMarker? <==> Find(page, marker, 0) == -1
    ensures r.Unterminated? <==> Find(page, marker, 0) != -1 && Find(page, ScriptEnd, Find(page, marker, 0) + |marker|) == -1
    ensures r.Text? ==> var start := Find(page, marker, 0) + |marker|;
                        r.s == page[start..Find(page, ScriptEnd, start)]
  {
    var start := Find(page, marker, 0);
    if start == -1 then NoMarker
    else
      var from := start + |marker|;
      var end := Find(page, ScriptEnd, from);
      if end == -1 then Unterminated
      else Text(Slice(page, from, end))
  }

  /** The first `</script>` in `t + "</script>"` is the appended one. */
  predicate EndsFirst(t: string)
  {
    forall p :: 0 <= p < |t| ==> !OccursAt(t + ScriptEnd, ScriptEnd, p)
  }

  /** `marker` occurs at i and not before. */
  predicate FirstAt(page: string, marker: string, i: nat)
  {
    OccursAt(page, marker, i) && forall j :: 0 <= j < i ==> !OccursAt(page, marker, j)
  }

  /** Text found by a search stands at a script's end in `t + "</script>"` exactly as in the page. */
  lemma SameOccurrence(page: string, from: nat, t: string, p: nat)
    requires from + |t| + |ScriptEnd| <= |page| && page[from..from + |t| + |ScriptEnd|] == t + ScriptEnd
    requires p < |t|
    ensures OccursAt(t + ScriptEnd, ScriptEnd, p) <==> OccursAt(page, ScriptEnd, from + p)
  {
    var w := t + ScriptEnd;
    assert w == page[from..from + |w|];
    assert w[p..p + |ScriptEnd|] == page[from..from + |w|][p..p + |ScriptEnd|];
    assert page[from..from + |w|][p..p + |ScriptEnd|] == page[from + p..from + p + |ScriptEnd|];
    assert OccursAt(t + ScriptEnd, ScriptEnd, p) <==> w[p..p + |ScriptEnd|] == ScriptEnd;
  }

  /**
   * What the located text is, without reference to the search: the opening
   * marker, the text and `</script>` stand at the marker's first occurrence,
   * and the text holds no `</script>`.
   */
  lemma LocateText(page: string, marker: string)
    requires Locate(page, marker).Text?
    ensures var i := Find(page, marker, 0);
            var t := Locate(page, marker).s;
            i >= 0 && FirstAt(page, marker, i) &&
            OccursAt(page, marker + t + ScriptEnd, i) && EndsFirst(t)
  {
    var i := Find(page, marker, 0);
    var from := i + |marker|;
    var end := Find(page, ScriptEnd, from);
    var t := Locate(page, marker).s;
    assert t == page[from..end];
    assert FirstAt(page, marker, i);
    assert OccursAt(page, ScriptEnd, end);
    Around(page, i, marker, t, from, end);
    EndsFirstHere(page, from, t);
  }

  /** The marker at i, the text from `from` to `end` and `</script>` at `end` stand together at i. */
  lemma Around(page: string, i: nat, marker: string, t: string, from: nat, end: nat)
    requires OccursAt(page, marker, i) && from == i + |marker|
    requires OccursAt(page, ScriptEnd, end) && from <= end && t == page[from..end]
    ensures OccursAt(page, marker + t + ScriptEnd, i)
    ensures page[from..end + |ScriptEnd|] == t + ScriptEnd
  {
    assert page[from..end + |ScriptEnd|] == page[from..end] + page[end..end + |ScriptEnd|];
    var w := marker + t + ScriptEnd;
    assert i + |w| == end + |ScriptEnd|;
    assert page[i..end + |ScriptEnd|] == page[i..from] + page[from..end + |ScriptEnd|];
  }

  /** No `</script>` between `from` and the end of t in the page means none in t + `</script>` before its last one. */
  lemma EndsFirstHere(page: string, from: nat, t: string)
    requires from + |t| + |ScriptEnd| <= |page| && page[from..from + |t| + |ScriptEnd|] == t + ScriptEnd
    requires forall k :: from <= k < from + |t| ==> !OccursAt(page, ScriptEnd, k)
    ensures EndsFirst(t)
  {
    forall p | 0 <= p < |t| ensures !OccursAt(t + ScriptEnd, ScriptEnd, p) {
      SameOccurrence(page, from, t, p);
    }
  }

  /** Conversely, text standing between the first marker and the first `</script>` after it is what is located. */
  lemma LocateUnique(page: string, marker: string, i: nat, t: string)
    requires FirstAt(page, marker, i)
    requires OccursAt(page, marker + t + ScriptEnd, i) && EndsFirst(t)
    ensures Locate(page, marker) == Text(t)
  {
    var from := i + |marker|;
    var end := from + |t|;
    assert Find(page, marker, 0) == i;
    Apart(page, i, marker, t);
    FirstEnd(page, from, t);
    assert Find(page, ScriptEnd, from) == end;
    assert Slice(page, from, end) == t;
  }

  /** The pieces of `marker + t + "</script>"` standing at i. */
  lemma Apart(page: string, i: nat, marker: string, t: string)
    requires OccursAt(page, marker + t + ScriptEnd, i)
    ensures var from := i + |marker|;
            page[from..from + |t| + |ScriptEnd|] == t + ScriptEnd && page[from..from + |t|] == t &&
            OccursAt(page, ScriptEnd, from + |t|)
  {
    var w := marker + t + ScriptEnd;
    var from := i + |marker|;
    var end := from + |t|;
    assert page[from..end + |ScriptEnd|] == w[|marker|..] by {
      assert page[i..i + |w|] == w;
    }
    assert w[|marker|..] == t + ScriptEnd;
    assert page[end..end + |ScriptEnd|] == (t + ScriptEnd)[|t|..];
    assert page[from..end] == (t + ScriptEnd)[..|t|];
  }

  /** When t + `</script>` stands at `from` and t holds no `</script>`, the search from `from` finds the appended one. */
  lemma FirstEnd(page: string, from: nat, t: string)
    requires from + |t| + |ScriptEnd| <= |page| && page[from..from + |t| + |ScriptEnd|] == t + ScriptEnd
    requires OccursAt(page, ScriptEnd, from + |t|) && EndsFirst(t)
    ensures Find(page, ScriptEnd, from) == from + |t|
  {
    forall k | from <= k < from + |t| ensures !OccursAt(page, ScriptEnd, k) {
      SameOccurrence(page, from, t, k - from);
    }
  }
}
