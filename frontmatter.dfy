/** Front matter of a Markdown article: the block between a leading `---` line and
    the next `---` line, read as `key: value` lines with continuation lines, and a
    reading-time estimate from the word count (lib/frontmatter.js). */
module FrontMatter {
  import opened Wrappers
  import opened JsString
  import JsonStrings

  /** A front-matter value: text, or a list of strings from a bracketed JSON value. */
  datatype Value = Str(text: string) | List(items: seq<string>)

  /** `JSON.parse` threw on a bracketed value. */
  datatype ParseError = InvalidJson

  // ---------------------------------------------------------------------------
  // The block: `^---\s*\n([\s\S]*?)\n---\s*\n`

  /** From index `i`, only whitespace is seen before a newline (`\s*\n` matches there). */
  predicate NewlineAfterSpaces(s: string, i: nat)
    decreases |s| - i
  {
    i < |s| && (s[i] == '\n' || (IsSpace(s[i]) && NewlineAfterSpaces(s, i + 1)))
  }

  /** The block may open with the newline at `p`: `s` starts with `---` and only
      whitespace lies between the dashes and `p`. */
  predicate OpensAt(s: string, p: int)
  {
    StartsWith(s, "---") && 3 <= p < |s| && s[p] == '\n' && forall k | 3 <= k < p :: IsSpace(s[k])
  }

  /** The block may close at `q`: a newline, three dashes, whitespace, a newline. */
  predicate ClosesAt(s: string, q: int)
  {
    && 0 <= q && q + 4 <= |s|
    && s[q] == '\n' && s[q + 1] == '-' && s[q + 2] == '-' && s[q + 3] == '-'
    && NewlineAfterSpaces(s, q + 4)
  }

  /** The smallest closing position at or after `q` (the lazy group). */
  function FirstClose(s: string, q: nat): (r: Option<nat>)
    ensures r.Some? ==> q <= r.value && ClosesAt(s, r.value)
    ensures r.Some? ==> forall k | q <= k < r.value :: !ClosesAt(s, k)
    ensures r.None? ==> forall k | q <= k :: !ClosesAt(s, k)
    decreases |s| - q
  {
    if q + 4 > |s| then None
    else if ClosesAt(s, q) then Some(q)
    else FirstClose(s, q + 1)
  }

  /** The first index at or after `i` that is not whitespace (or the end). */
  function SpaceRunEnd(s: string, i: nat): (j: nat)
    requires i <= |s|
    ensures i <= j <= |s| && (j == |s| || !IsSpace(s[j]))
    ensures forall k | i <= k < j :: IsSpace(s[k])
    decreases |s| - i
  {
    if i < |s| && IsSpace(s[i]) then SpaceRunEnd(s, i + 1) else i
  }

  /** Tries the opening newlines at `p` and below, the largest first (the greedy
      `\s*` gives characters back one at a time). */
  function TryOpen(s: string, p: int): (r: Option<(nat, nat)>)
    requires p < |s|
    ensures r.Some? ==> 3 <= r.value.0 <= p && s[r.value.0] == '\n'
    ensures r.Some? ==> FirstClose(s, r.value.0 + 1) == Some(r.value.1)
    decreases p
  {
    if p < 3 then None
    else
      var c := FirstClose(s, p + 1);
      if s[p] == '\n' && c.Some? then Some((p, c.value)) else TryOpen(s, p - 1)
  }

  /** No newline tried before the one chosen (or none at all) had a closing delimiter
      after it. */
  lemma {:induction false} TryOpenSkipped(s: string, p: int)
    requires p < |s|
    ensures TryOpen(s, p).Some? ==>
              forall k | TryOpen(s, p).value.0 < k <= p && s[k] == '\n' :: FirstClose(s, k + 1).None?
    ensures TryOpen(s, p).None? ==> forall k | 3 <= k <= p && s[k] == '\n' :: FirstClose(s, k + 1).None?
    decreases p
  {
    if p >= 3 {
      var c := FirstClose(s, p + 1);
      if !(s[p] == '\n' && c.Some?) {
        TryOpenSkipped(s, p - 1);
      }
    }
  }

  /** The text of the front-matter block, if the content has one. */
  function BlockMatch(s: string): Option<string>
  {
    if !StartsWith(s, "---") then None
    else
      match TryOpen(s, SpaceRunEnd(s, 3) - 1)
      case None => None
      case Some(pq) => Some(s[pq.0 + 1..pq.1])
  }

  lemma OpenWithinRun(s: string, p: int)
    requires OpensAt(s, p)
    ensures p < SpaceRunEnd(s, 3)
  {
  }

  /** A found block lies between an opening newline and a closing delimiter; no
      closing delimiter comes earlier, and no later opening newline has one after it. */
  lemma BlockMatchSound(s: string)
    requires BlockMatch(s).Some?
    ensures exists p, q ::
              && OpensAt(s, p) && ClosesAt(s, q) && p < q && BlockMatch(s).value == s[p + 1..q]
              && (forall q' | p < q' < q :: !ClosesAt(s, q'))
              && (forall p', q' | p < p' < q' :: !(OpensAt(s, p') && ClosesAt(s, q')))
  {
    var w := SpaceRunEnd(s, 3);
    var t := TryOpen(s, w - 1);
    var p, q := t.value.0, t.value.1;
    assert OpensAt(s, p);
    assert ClosesAt(s, q) && p < q;
    assert BlockMatch(s).value == s[p + 1..q];
    assert forall q' | p < q' < q :: !ClosesAt(s, q');
    NoLaterOpening(s, p);
  }

  /** After the opening newline `TryOpen` picks, no opening newline has a closing
      delimiter after it. */
  lemma NoLaterOpening(s: string, p: int)
    requires StartsWith(s, "---") && TryOpen(s, SpaceRunEnd(s, 3) - 1).Some?
    requires p == TryOpen(s, SpaceRunEnd(s, 3) - 1).value.0
    ensures forall p', q' | p < p' < q' :: !(OpensAt(s, p') && ClosesAt(s, q'))
  {
    var w := SpaceRunEnd(s, 3);
    TryOpenSkipped(s, w - 1);
    forall p', q' | p < p' < q' ensures !(OpensAt(s, p') && ClosesAt(s, q')) {
      if OpensAt(s, p') {
        OpenWithinRun(s, p');
        assert FirstClose(s, p' + 1).None?;
      }
    }
  }

  /** Whenever an opening newline has a closing delimiter after it, a block is found. */
  lemma BlockMatchComplete(s: string, p: int, q: int)
    requires OpensAt(s, p) && ClosesAt(s, q) && p < q
    ensures BlockMatch(s).Some?
  {
    var w := SpaceRunEnd(s, 3);
    OpenWithinRun(s, p);
    TryOpenSkipped(s, w - 1);
  }

  /** The block is found exactly when some opening newline is followed by some
      closing delimiter. */
  lemma BlockMatchMeaning(s: string)
    ensures BlockMatch(s).Some? <==> exists p, q :: OpensAt(s, p) && ClosesAt(s, q) && p < q
  {
    if BlockMatch(s).Some? {
      BlockMatchSound(s);
    } else {
      forall p, q | OpensAt(s, p) && ClosesAt(s, q) && p < q ensures false {
        BlockMatchComplete(s, p, q);
      }
    }
  }

  /** An empty block written as two consecutive `---` lines is not recognised: the
      closing delimiter must begin with a newline of its own. */
  lemma EmptyBlockNotMatched()
    ensures BlockMatch("---\n---\n").None?
  {
    var s := "---\n---\n";
    BlockMatchMeaning(s);
    forall p, q | OpensAt(s, p) && p < q ensures !ClosesAt(s, q) {
      assert p == 3;
      assert !OccursAt(s, "\n---", q) by {
        if q == 4 { assert s[4] != '\n'; }
      }
    }
  }

  // ---------------------------------------------------------------------------
  // Key lines: `^(\w+):\s*(.*)$`

  predicate HasLineTerminator(s: string)
  {
    exists k | 0 <= k < |s| :: IsLineTerminator(s[k])
  }

  predicate IsWord(s: string)
  {
    forall k | 0 <= k < |s| :: IsWordChar(s[k])
  }

  predicate AllSpace(s: string)
  {
    forall k | 0 <= k < |s| :: IsSpace(s[k])
  }

  /** The length of the longest prefix of word characters. */
  function WordPrefixLength(s: string): (n: nat)
    ensures n <= |s| && IsWord(s[..n]) && (n == |s| || !IsWordChar(s[n]))
  {
    if s != [] && IsWordChar(s[0]) then
      var n := 1 + WordPrefixLength(s[1..]);
      assert s[..n] == [s[0]] + s[1..][..n - 1];
      n
    else 0
  }

  /** The key and the value of a key line; the value is what follows the colon
      without its leading whitespace. `.` does not match a line terminator, so a
      value that still holds one makes the line a continuation line. */
  function KeyMatch(line: string): (r: Option<(string, string)>)
    ensures r.Some? ==>
              && |r.value.0| > 0 && IsWord(r.value.0)
              && (r.value.1 == [] || !IsSpace(r.value.1[0])) && !HasLineTerminator(r.value.1)
              && exists w :: AllSpace(w) && line == r.value.0 + ":" + w + r.value.1
  {
    var n := WordPrefixLength(line);
    if n == 0 || n == |line| || line[n] != ':' then None
    else
      var after := line[n + 1..];
      var v := TrimStart(after);
      if HasLineTerminator(v) then None
      else
        var w := after[..|after| - |v|];
        TrimStartMeaning(after);
        assert line == line[..n] + ":" + w + v;
        Some((line[..n], v))
  }

  predicate IsKeyLine(line: string)
  {
    KeyMatch(line).Some?
  }

  /** The line `k: <whitespace>v` is read back as key `k` with value `v`. */
  lemma KeyLineRoundTrip(k: string, w: string, v: string)
    requires |k| > 0 && IsWord(k) && AllSpace(w)
    requires (v == [] || !IsSpace(v[0])) && !HasLineTerminator(v)
    ensures KeyMatch(k + ":" + w + v) == Some((k, v))
  {
    var line := k + ":" + w + v;
    assert line[..|k|] == k;
    assert line[|k|] == ':';
    assert WordPrefixLength(line) == |k| by {
      WordPrefixOf(line, |k|);
    }
    var after := line[|k| + 1..];
    assert after == w + v;
    TrimStartOfSpaces(w, v);
  }

  lemma WordPrefixOf(s: string, n: nat)
    requires n < |s| && IsWord(s[..n]) && !IsWordChar(s[n])
    ensures WordPrefixLength(s) == n
  {
    if n > 0 {
      assert s[1..][..n - 1] == s[..n][1..];
      WordPrefixOf(s[1..], n - 1);
    }
  }

  lemma TrimStartOfSpaces(w: string, v: string)
    requires AllSpace(w) && (v == [] || !IsSpace(v[0]))
    ensures TrimStart(w + v) == v
  {
    if w != [] {
      assert (w + v)[1..] == w[1..] + v;
      TrimStartOfSpaces(w[1..], v);
    }
  }

  /** A value line ending in a carriage return (a file with CRLF line ends) is not
      a key line, because the value would have to contain the `\r`. */
  lemma CarriageReturnValueIsNoKey(k: string, v: string)
    requires |k| > 0 && IsWord(k) && v != [] && !IsSpace(v[0])
    ensures !IsKeyLine(k + ": " + v + "\r")
  {
    var line := k + ": " + v + "\r";
    assert line[..|k|] == k;
    WordPrefixOf(line, |k|);
    var after := line[|k| + 1..];
    assert after == " " + (v + "\r");
    TrimStartOfSpaces(" ", v + "\r");
    assert (v + "\r")[|v|] == '\r';
  }

  // ---------------------------------------------------------------------------
  // The key/continuation scan

  /** A line of the block, as the key pattern sees it. */
  datatype LineKind = KeyLine(key: string, value: string) | Continuation(text: string)

  function Classify(line: string): LineKind
  {
    match KeyMatch(line)
    case Some(kv) => KeyLine(kv.0, kv.1)
    case None => Continuation(line)
  }

  function ClassifyAll(lines: seq<string>): (r: seq<LineKind>)
    ensures |r| == |lines| && forall j | 0 <= j < |lines| :: r[j] == Classify(lines[j])
  {
    seq(|lines|, j requires 0 <= j < |lines| => Classify(lines[j]))
  }

  /** What the scan has seen so far: the values stored, the key being read (if a
      key line has been seen) and the pieces of its value. */
  datatype Pending = Pending(stored: map<string, string>, key: Option<string>, pieces: seq<string>)

  const Start := Pending(map[], None, [])

  /** The stored value of a key: its pieces joined by newlines, trimmed. */
  function StoredValue(pieces: seq<string>): string
  {
    Trim(Join(pieces, "\n"))
  }

  /** The values after storing the key being read. */
  function Flush(st: Pending): map<string, string>
  {
    if st.key.Some? then st.stored[st.key.value := StoredValue(st.pieces)] else st.stored
  }

  /** One line of the scan. */
  function Step(st: Pending, line: LineKind): Pending
  {
    match line
    case KeyLine(k, v) => Pending(Flush(st), Some(k), [v])
    case Continuation(text) => if st.key.Some? then st.(pieces := st.pieces + [text]) else st
  }

  /** The scan of the remaining lines from a state, in order. */
  function ScanFrom(st: Pending, lines: seq<LineKind>): Pending
    decreases |lines|
  {
    if lines == [] then st else ScanFrom(Step(st, lines[0]), lines[1..])
  }

  /** A key line and the continuation lines that follow it. */
  datatype Section = Section(key: string, pieces: seq<string>)

  /** How many leading lines are continuation lines. */
  function ContinuationCount(lines: seq<LineKind>): (n: nat)
    ensures n <= |lines|
    ensures forall j | 0 <= j < n :: lines[j].Continuation?
    ensures n == |lines| || lines[n].KeyLine?
  {
    if lines == [] || lines[0].KeyLine? then 0 else 1 + ContinuationCount(lines[1..])
  }

  /** The text of a continuation line. */
  function TextOf(line: LineKind): string
  {
    if line.Continuation? then line.text else ""
  }

  function Texts(lines: seq<LineKind>): (r: seq<string>)
    ensures |r| == |lines| && forall j | 0 <= j < |lines| :: r[j] == TextOf(lines[j])
  {
    seq(|lines|, j requires 0 <= j < |lines| => TextOf(lines[j]))
  }

  /** The block cut into sections, front to back; lines before the first key line
      belong to no section. */
  function Sections(lines: seq<LineKind>): seq<Section>
    decreases |lines|
  {
    if lines == [] then []
    else if lines[0].Continuation? then Sections(lines[1..])
    else
      var n := ContinuationCount(lines[1..]);
      [Section(lines[0].key, [lines[0].value] + Texts(lines[1..1 + n]))] + Sections(lines[1 + n..])
  }

  /** The values the sections leave on top of `m`, a later section overriding an
      earlier one with the same key. */
  function StoreAll(m: map<string, string>, secs: seq<Section>): map<string, string>
    decreases |secs|
  {
    if secs == [] then m else StoreAll(m[secs[0].key := StoredValue(secs[0].pieces)], secs[1..])
  }

  /** A key is stored exactly when it was there already or some section has it. */
  lemma {:induction false} StoreAllKeys(m: map<string, string>, secs: seq<Section>, k: string)
    ensures k in StoreAll(m, secs) <==> k in m || exists i | 0 <= i < |secs| :: secs[i].key == k
    decreases |secs|
  {
    if secs != [] {
      StoreAllKeys(m[secs[0].key := StoredValue(secs[0].pieces)], secs[1..], k);
      if exists i | 0 <= i < |secs| :: secs[i].key == k {
        var i :| 0 <= i < |secs| && secs[i].key == k;
        if i > 0 { assert secs[1..][i - 1].key == k; }
      }
      if exists i | 0 <= i < |secs[1..]| :: secs[1..][i].key == k {
        var i :| 0 <= i < |secs[1..]| && secs[1..][i].key == k;
        assert secs[i + 1].key == k;
      }
    }
  }

  /** Sections with other keys leave a stored value alone. */
  lemma {:induction false} StoreAllOthers(m: map<string, string>, secs: seq<Section>, k: string)
    requires k in m && forall i | 0 <= i < |secs| :: secs[i].key != k
    ensures k in StoreAll(m, secs) && StoreAll(m, secs)[k] == m[k]
    decreases |secs|
  {
    if secs != [] {
      var m' := m[secs[0].key := StoredValue(secs[0].pieces)];
      forall i | 0 <= i < |secs[1..]| ensures secs[1..][i].key != k {
        assert secs[1..][i] == secs[i + 1];
      }
      StoreAllOthers(m', secs[1..], k);
    }
  }

  /** A key holds the value of its last section. */
  lemma {:induction false} StoreAllLastWins(m: map<string, string>, secs: seq<Section>, i: nat)
    requires i < |secs|
    requires forall j | i < j < |secs| :: secs[j].key != secs[i].key
    ensures var k := secs[i].key; k in StoreAll(m, secs) && StoreAll(m, secs)[k] == StoredValue(secs[i].pieces)
    decreases |secs|
  {
    var m' := m[secs[0].key := StoredValue(secs[0].pieces)];
    if i == 0 {
      forall j | 0 <= j < |secs[1..]| ensures secs[1..][j].key != secs[0].key {
        assert secs[1..][j] == secs[j + 1];
      }
      StoreAllOthers(m', secs[1..], secs[0].key);
    } else {
      assert secs[1..][i - 1] == secs[i];
      forall j | i - 1 < j < |secs[1..]| ensures secs[1..][j].key != secs[i].key {
        assert secs[1..][j] == secs[j + 1];
      }
      StoreAllLastWins(m', secs[1..], i - 1);
    }
  }

  /** Lines that are not key lines in front of the first key line change nothing. */
  lemma {:induction false} SectionsIgnoreLeadingLines(pre: seq<LineKind>, rest: seq<LineKind>)
    requires forall j | 0 <= j < |pre| :: pre[j].Continuation?
    ensures Sections(pre + rest) == Sections(rest)
  {
    if pre == [] {
      assert pre + rest == rest;
    } else {
      assert (pre + rest)[1..] == pre[1..] + rest;
      SectionsIgnoreLeadingLines(pre[1..], rest);
    }
  }

  /** Continuation lines while a key is being read add their text to its pieces. */
  lemma {:induction false} ScanContinuations(st: Pending, lines: seq<LineKind>, n: nat)
    requires st.key.Some? && n <= |lines|
    requires forall j | 0 <= j < n :: lines[j].Continuation?
    ensures ScanFrom(st, lines) == ScanFrom(st.(pieces := st.pieces + Texts(lines[..n])), lines[n..])
    decreases n
  {
    if n == 0 {
      assert st.pieces + Texts(lines[..0]) == st.pieces;
      assert lines[0..] == lines;
    } else {
      var st' := Step(st, lines[0]);
      assert st' == st.(pieces := st.pieces + [TextOf(lines[0])]);
      forall j | 0 <= j < n - 1 ensures lines[1..][j].Continuation? {
        assert lines[1..][j] == lines[j + 1];
      }
      ScanContinuations(st', lines[1..], n - 1);
      assert Texts(lines[..n]) == [TextOf(lines[0])] + Texts(lines[1..][..n - 1]);
      assert st'.pieces + Texts(lines[1..][..n - 1]) == st.pieces + Texts(lines[..n]);
      assert lines[1..][n - 1..] == lines[n..];
    }
  }

  /** Scanning from a state with nothing being read stores the sections' values on top
      of what was stored. */
  lemma {:induction false} ScanStoresSections(m: map<string, string>, lines: seq<LineKind>)
    ensures Flush(ScanFrom(Pending(m, None, []), lines)) == StoreAll(m, Sections(lines))
    decreases |lines|, 1
  {
    if lines != [] {
      if lines[0].Continuation? {
        ScanStoresSections(m, lines[1..]);
      } else {
        ScanStoresKeySection(m, lines);
      }
    }
  }

  /** The lines begin with a key line: its section is stored when the next key line
      (or the end) is reached. */
  lemma {:induction false} ScanStoresKeySection(m: map<string, string>, lines: seq<LineKind>)
    requires lines != [] && lines[0].KeyLine?
    ensures Flush(ScanFrom(Pending(m, None, []), lines)) == StoreAll(m, Sections(lines))
    decreases |lines|, 0
  {
    var k, v := lines[0].key, lines[0].value;
    var n := ContinuationCount(lines[1..]);
    var pieces := [v] + Texts(lines[1..][..n]);
    assert lines[1..][..n] == lines[1..1 + n];
    var rest := lines[1..][n..];
    assert rest == lines[1 + n..];
    SectionsOfKeyLine(lines);
    var m' := m[k := StoredValue(pieces)];
    assert StoreAll(m, Sections(lines)) == StoreAll(m', Sections(rest));
    assert ScanFrom(Pending(m, None, []), lines) == ScanFrom(Pending(m, Some(k), [v]), lines[1..]);
    ScanContinuations(Pending(m, Some(k), [v]), lines[1..], n);
    if rest != [] {
      FlushBeforeKeyLine(Pending(m, Some(k), pieces), rest);
      ScanStoresSections(m', rest);
    }
  }

  /** A key line stores the key being read before anything else. */
  lemma FlushBeforeKeyLine(st: Pending, rest: seq<LineKind>)
    requires rest != [] && rest[0].KeyLine?
    ensures ScanFrom(st, rest) == ScanFrom(Pending(Flush(st), None, []), rest)
  {
    assert Step(st, rest[0]) == Step(Pending(Flush(st), None, []), rest[0]);
  }

  /** Every section comes from a key line with the same key. */
  lemma {:induction false} SectionKeysFromLines(lines: seq<LineKind>, i: nat)
    requires i < |Sections(lines)|
    ensures exists j | 0 <= j < |lines| :: lines[j].KeyLine? && lines[j].key == Sections(lines)[i].key
    decreases |lines|
  {
    NonEmptyWhenSectioned(lines, i);
    if lines[0].Continuation? {
      SectionsSkipContinuation(lines);
      SectionKeysFromLines(lines[1..], i);
      var j :| 0 <= j < |lines[1..]| && lines[1..][j].KeyLine? && lines[1..][j].key == Sections(lines)[i].key;
      assert lines[j + 1] == lines[1..][j];
    } else if i > 0 {
      var n := ContinuationCount(lines[1..]);
      var rest := lines[1 + n..];
      SectionAfterFirst(lines, n, rest, i);
      SectionKeysFromLines(rest, i - 1);
      var j :| 0 <= j < |rest| && rest[j].KeyLine? && rest[j].key == Sections(lines)[i].key;
      assert lines[1 + n + j] == rest[j];
    }
  }

  lemma NonEmptyWhenSectioned(lines: seq<LineKind>, i: nat)
    requires i < |Sections(lines)|
    ensures lines != []
  {
  }

  lemma SectionsSkipContinuation(lines: seq<LineKind>)
    requires lines != [] && lines[0].Continuation?
    ensures Sections(lines) == Sections(lines[1..])
  {
  }

  /** Past the first section of lines that begin with a key line come the sections
      of the lines after it. */
  lemma SectionAfterFirst(lines: seq<LineKind>, n: nat, rest: seq<LineKind>, i: nat)
    requires lines != [] && lines[0].KeyLine?
    requires n == ContinuationCount(lines[1..]) && rest == lines[1 + n..]
    requires 0 < i < |Sections(lines)|
    ensures i - 1 < |Sections(rest)| && Sections(lines)[i] == Sections(rest)[i - 1]
  {
    SectionsOfKeyLine(lines);
  }

  /** Storing the sections of lines that begin with a key line stores the first
      section, then the sections of the lines after it. */
  lemma StoreFirstSection(m: map<string, string>, lines: seq<LineKind>, n: nat, rest: seq<LineKind>)
    requires lines != [] && lines[0].KeyLine?
    requires n == ContinuationCount(lines[1..]) && rest == lines[1 + n..]
    ensures StoreAll(m, Sections(lines))
            == StoreAll(m[lines[0].key := StoredValue([lines[0].value] + Texts(lines[1..1 + n]))], Sections(rest))
  {
    SectionsOfKeyLine(lines);
    var first := Section(lines[0].key, [lines[0].value] + Texts(lines[1..1 + n]));
    var secs := [first] + Sections(rest);
    assert Sections(lines) == secs;
    assert secs[0] == first && secs[1..] == Sections(rest);
  }

  /** Every key line opens a section. */
  lemma {:induction false} LineKeysHaveSections(lines: seq<LineKind>, j: nat)
    requires j < |lines| && lines[j].KeyLine?
    ensures exists i | 0 <= i < |Sections(lines)| :: Sections(lines)[i].key == lines[j].key
    decreases |lines|
  {
    if lines[0].Continuation? {
      assert lines[1..][j - 1] == lines[j];
      LineKeysHaveSections(lines[1..], j - 1);
      SectionsSkipContinuation(lines);
    } else if j > 0 {
      var n := ContinuationCount(lines[1..]);
      var rest := lines[1 + n..];
      KeyLineBeyondFirstSection(lines, n, j);
      assert rest[j - 1 - n] == lines[j];
      LineKeysHaveSections(rest, j - 1 - n);
      var i :| 0 <= i < |Sections(rest)| && Sections(rest)[i].key == lines[j].key;
      SectionsPastFirst(lines, n, rest);
      assert Sections(lines)[1..][i] == Sections(rest)[i];
    } else {
      SectionsOfKeyLine(lines);
      assert Sections(lines)[0].key == lines[0].key;
    }
  }

  /** A later key line lies past the continuation lines of the first section. */
  lemma KeyLineBeyondFirstSection(lines: seq<LineKind>, n: nat, j: nat)
    requires lines != [] && n == ContinuationCount(lines[1..])
    requires 0 < j < |lines| && lines[j].KeyLine?
    ensures j >= 1 + n
  {
    assert lines[1..][j - 1] == lines[j];
  }

  /** Past the first section of lines that begin with a key line come exactly the
      sections of the lines after it. */
  lemma SectionsPastFirst(lines: seq<LineKind>, n: nat, rest: seq<LineKind>)
    requires lines != [] && lines[0].KeyLine?
    requires n == ContinuationCount(lines[1..]) && rest == lines[1 + n..]
    ensures |Sections(lines)| == 1 + |Sections(rest)| && Sections(lines)[1..] == Sections(rest)
  {
    SectionsOfKeyLine(lines);
  }

  /** The first section of lines that begin with a key line, and the lines after it. */
  lemma SectionsOfKeyLine(lines: seq<LineKind>)
    requires lines != [] && lines[0].KeyLine?
    ensures var n := ContinuationCount(lines[1..]);
            Sections(lines) == [Section(lines[0].key, [lines[0].value] + Texts(lines[1..1 + n]))] + Sections(lines[1 + n..])
  {
  }

  /** A key is stored exactly when some line is a key line with that key. */
  lemma KeyStoredIff(lines: seq<LineKind>, k: string)
    ensures k in StoreAll(map[], Sections(lines)) <==>
              exists j | 0 <= j < |lines| :: lines[j].KeyLine? && lines[j].key == k
  {
    StoreAllKeys(map[], Sections(lines), k);
    if exists i | 0 <= i < |Sections(lines)| :: Sections(lines)[i].key == k {
      var i :| 0 <= i < |Sections(lines)| && Sections(lines)[i].key == k;
      SectionKeysFromLines(lines, i);
    }
    if exists j | 0 <= j < |lines| :: lines[j].KeyLine? && lines[j].key == k {
      var j :| 0 <= j < |lines| && lines[j].KeyLine? && lines[j].key == k;
      LineKeysHaveSections(lines, j);
    }
  }

  /** The value stored for a key line with no later key line of the same key. */
  function ValueAt(lines: seq<LineKind>, j: nat): string
    requires j < |lines| && lines[j].KeyLine?
  {
    var after := lines[j + 1..];
    StoredValue([lines[j].value] + Texts(after[..ContinuationCount(after)]))
  }

  predicate LastWithKey(lines: seq<LineKind>, j: nat)
  {
    && j < |lines| && lines[j].KeyLine?
    && forall j' | j < j' < |lines| :: !(lines[j'].KeyLine? && lines[j'].key == lines[j].key)
  }

  lemma LastOccurrenceAtHead(m: map<string, string>, lines: seq<LineKind>)
    requires LastWithKey(lines, 0)
    ensures lines[0].key in StoreAll(m, Sections(lines))
    ensures StoreAll(m, Sections(lines))[lines[0].key] == ValueAt(lines, 0)
  {
    var k := lines[0].key;
    var n := ContinuationCount(lines[1..]);
    var rest := lines[1 + n..];
    var m' := m[k := ValueAt(lines, 0)];
    assert lines[1..][..n] == lines[1..1 + n];
    StoreFirstSection(m, lines, n, rest);
    RestSectionsOtherKeys(lines, n, rest);
    StoreAllOthers(m', Sections(rest), k);
  }

  /** After the first section, no section has the key of a key line that is the last
      with its key. */
  lemma RestSectionsOtherKeys(lines: seq<LineKind>, n: nat, rest: seq<LineKind>)
    requires LastWithKey(lines, 0) && n == ContinuationCount(lines[1..]) && rest == lines[1 + n..]
    ensures forall i | 0 <= i < |Sections(rest)| :: Sections(rest)[i].key != lines[0].key
  {
    forall i | 0 <= i < |Sections(rest)| ensures Sections(rest)[i].key != lines[0].key {
      SectionKeysFromLines(rest, i);
      var j' :| 0 <= j' < |rest| && rest[j'].KeyLine? && rest[j'].key == Sections(rest)[i].key;
      assert rest[j'] == lines[1 + n + j'];
    }
  }

  /** The last key line with a key decides its value: the text after its colon
      followed by the continuation lines up to the next key line, joined by newlines
      and trimmed. */
  lemma {:induction false} LastOccurrenceWins(m: map<string, string>, lines: seq<LineKind>, j: nat)
    requires LastWithKey(lines, j)
    ensures lines[j].key in StoreAll(m, Sections(lines))
    ensures StoreAll(m, Sections(lines))[lines[j].key] == ValueAt(lines, j)
    decreases |lines|, 1
  {
    if j == 0 {
      LastOccurrenceAtHead(m, lines);
    } else if lines[0].Continuation? {
      LastOccurrenceBehindContinuation(m, lines, j);
    } else {
      LastOccurrenceBehindSection(m, lines, j);
    }
  }

  lemma {:induction false} LastOccurrenceBehindContinuation(m: map<string, string>, lines: seq<LineKind>, j: nat)
    requires LastWithKey(lines, j) && j > 0 && lines[0].Continuation?
    ensures lines[j].key in StoreAll(m, Sections(lines))
    ensures StoreAll(m, Sections(lines))[lines[j].key] == ValueAt(lines, j)
    decreases |lines|, 0
  {
    var k := lines[j].key;
    var tail := lines[1..];
    assert tail[j - 1] == lines[j];
    assert LastWithKey(tail, j - 1) by {
      forall j' | j - 1 < j' < |tail| ensures !(tail[j'].KeyLine? && tail[j'].key == k) {
        assert tail[j'] == lines[j' + 1];
      }
    }
    LastOccurrenceWins(m, tail, j - 1);
    assert ValueAt(tail, j - 1) == ValueAt(lines, j) by {
      assert tail[j - 1 + 1..] == lines[j + 1..];
    }
  }

  lemma {:induction false} LastOccurrenceBehindSection(m: map<string, string>, lines: seq<LineKind>, j: nat)
    requires LastWithKey(lines, j) && j > 0 && lines[0].KeyLine?
    ensures lines[j].key in StoreAll(m, Sections(lines))
    ensures StoreAll(m, Sections(lines))[lines[j].key] == ValueAt(lines, j)
    decreases |lines|, 0
  {
    var k := lines[j].key;
    var n := ContinuationCount(lines[1..]);
    var rest := lines[1 + n..];
    var m' := m[lines[0].key := StoredValue([lines[0].value] + Texts(lines[1..1 + n]))];
    StoreFirstSection(m, lines, n, rest);
    assert 1 + n <= j;
    var r := j - 1 - n;
    assert rest[r] == lines[j];
    assert LastWithKey(rest, r) by {
      forall j' | r < j' < |rest| ensures !(rest[j'].KeyLine? && rest[j'].key == k) {
        assert rest[j'] == lines[1 + n + j'];
      }
    }
    LastOccurrenceWins(m', rest, r);
    assert ValueAt(rest, r) == ValueAt(lines, j) by {
      assert rest[r + 1..] == lines[j + 1..];
    }
  }

  // ---------------------------------------------------------------------------
  // Bracketed values and the whole parse

  /** The value starts with `[` and ends with `]`, so it is handed to `JSON.parse`. */
  predicate Bracketed(v: string)
  {
    StartsWith(v, "[") && EndsWith(v, "]")
  }

  /** What a stored value becomes in the array pass; `None` when `JSON.parse` throws. */
  function ConvertValue(v: string): (r: Option<Value>)
  {
    if !Bracketed(v) then Some(Str(v))
    else
      match JsonStrings.DecodeArray(v)
      case None => None
      case Some(items) => Some(List(items))
  }

  /** The array pass over all stored values: it fails as soon as one value fails. */
  function ConvertAll(m: map<string, string>): Result<map<string, Value>, ParseError>
  {
    if exists k | k in m :: ConvertValue(m[k]).None? then Err(InvalidJson)
    else Ok(map k | k in m :: ConvertValue(m[k]).value)
  }

  /** The lines of the block, classified. */
  function BlockLines(block: string): seq<LineKind>
  {
    ClassifyAll(Split(block, '\n'))
  }

  /** The front matter of `content`, stated section by section. */
  function Parsed(content: string): Result<map<string, Value>, ParseError>
  {
    match BlockMatch(content)
    case None => Ok(map[])
    case Some(block) => ConvertAll(StoreAll(map[], Sections(BlockLines(block))))
  }

  /** Every key that occurs on a key line has a last key line. */
  lemma {:induction false} LastKeyLineExists(lines: seq<LineKind>, j0: nat)
    requires j0 < |lines| && lines[j0].KeyLine?
    ensures exists j | 0 <= j < |lines| :: LastWithKey(lines, j) && lines[j].key == lines[j0].key
    decreases |lines| - j0
  {
    if !LastWithKey(lines, j0) {
      var j' :| j0 < j' < |lines| && lines[j'].KeyLine? && lines[j'].key == lines[j0].key;
      LastKeyLineExists(lines, j');
    }
  }

  /** Content without a block has no front matter. */
  lemma NoBlockNoFrontMatter(content: string)
    requires !StartsWith(content, "---") || forall p, q :: !(OpensAt(content, p) && ClosesAt(content, q) && p < q)
    ensures Parsed(content) == Ok(map[])
  {
    BlockMatchMeaning(content);
  }

  /** When parsing succeeds, the keys are exactly those of the key lines. */
  lemma ParsedKeys(content: string, block: string, k: string)
    requires BlockMatch(content) == Some(block) && Parsed(content).Ok?
    ensures k in Parsed(content).value <==>
              exists j | 0 <= j < |BlockLines(block)| :: BlockLines(block)[j].KeyLine? && BlockLines(block)[j].key == k
  {
    KeyStoredIff(BlockLines(block), k);
  }

  /** When parsing succeeds, a key has the value of its last key line: the text of
      that line and its continuation lines, trimmed; a list exactly when that text is
      bracketed, and then the strings of the JSON array it spells. */
  lemma ParsedValue(content: string, block: string, j: nat)
    requires BlockMatch(content) == Some(block) && Parsed(content).Ok?
    requires LastWithKey(BlockLines(block), j)
    ensures var lines := BlockLines(block);
            var v := ValueAt(lines, j);
            && lines[j].key in Parsed(content).value
            && (!Bracketed(v) ==> Parsed(content).value[lines[j].key] == Str(v))
            && (Bracketed(v) ==> Parsed(content).value[lines[j].key].List?
                                 && JsonStrings.DecodeArray(v) == Some(Parsed(content).value[lines[j].key].items))
  {
    LastOccurrenceWins(map[], BlockLines(block), j);
  }

  /** Parsing fails exactly when the value of some key is bracketed but is not a JSON
      array of strings. */
  lemma ParsedFailsIff(content: string, block: string)
    requires BlockMatch(content) == Some(block)
    ensures Parsed(content).Err? <==>
              exists j | 0 <= j < |BlockLines(block)| ::
                LastWithKey(BlockLines(block), j) && Bracketed(ValueAt(BlockLines(block), j))
                && JsonStrings.DecodeArray(ValueAt(BlockLines(block), j)).None?
  {
    var lines := BlockLines(block);
    if Parsed(content).Err? {
      FailureHasBadLine(lines);
    }
    if exists j | 0 <= j < |lines| :: LastWithKey(lines, j) && Bracketed(ValueAt(lines, j)) && JsonStrings.DecodeArray(ValueAt(lines, j)).None? {
      var j :| 0 <= j < |lines| && LastWithKey(lines, j) && Bracketed(ValueAt(lines, j)) && JsonStrings.DecodeArray(ValueAt(lines, j)).None?;
      BadLineFails(lines, j);
    }
  }

  lemma FailureHasBadLine(lines: seq<LineKind>)
    requires ConvertAll(StoreAll(map[], Sections(lines))).Err?
    ensures exists j | 0 <= j < |lines| ::
              LastWithKey(lines, j) && Bracketed(ValueAt(lines, j)) && JsonStrings.DecodeArray(ValueAt(lines, j)).None?
  {
    var m := StoreAll(map[], Sections(lines));
    assert exists k | k in m :: ConvertValue(m[k]).None?;
    var k :| k in m && ConvertValue(m[k]).None?;
    KeyStoredIff(lines, k);
    var j0 :| 0 <= j0 < |lines| && lines[j0].KeyLine? && lines[j0].key == k;
    LastKeyLineExists(lines, j0);
    var j :| 0 <= j < |lines| && LastWithKey(lines, j) && lines[j].key == k;
    LastOccurrenceWins(map[], lines, j);
    var v := ValueAt(lines, j);
    assert m[k] == v;
    assert Bracketed(v) && JsonStrings.DecodeArray(v).None?;
  }

  lemma BadLineFails(lines: seq<LineKind>, j: nat)
    requires LastWithKey(lines, j) && Bracketed(ValueAt(lines, j)) && JsonStrings.DecodeArray(ValueAt(lines, j)).None?
    ensures ConvertAll(StoreAll(map[], Sections(lines))).Err?
  {
    var m := StoreAll(map[], Sections(lines));
    LastOccurrenceWins(map[], lines, j);
    assert ConvertValue(m[lines[j].key]).None?;
  }

  /** A list written without quotes, as in `tags: [a, b]`, makes the whole parse fail. */
  lemma UnquotedListFails(content: string, block: string, j: nat)
    requires BlockMatch(content) == Some(block) && LastWithKey(BlockLines(block), j)
    requires ValueAt(BlockLines(block), j) == "[a, b]"
    ensures Parsed(content).Err?
  {
    JsonStrings.UnquotedPairFails();
    ParsedFailsIff(content, block);
  }

  /** `parseFrontMatter`: finds the block, stores the value of each key from its
      lines, then replaces each bracketed value by the array `JSON.parse` reads from
      it. */
  method ParseFrontMatter(content: string) returns (r: Result<map<string, Value>, ParseError>)
    ensures r == Parsed(content)
  {
    var block := BlockMatch(content);
    if block.None? {
      return Ok(map[]);
    }
    var fm := ScanLines(Split(block.value, '\n'));
    r := ConvertArrays(fm);
  }

  /** The line loop of `parseFrontMatter`: a key line stores the value being read, if
      any, and starts a new one; other lines add to the value being read. */
  method ScanLines(lines: seq<string>) returns (fm: map<string, string>)
    ensures fm == StoreAll(map[], Sections(ClassifyAll(lines)))
  {
    ghost var kinds := ClassifyAll(lines);
    fm := map[];
    var currentKey: Option<string> := None;
    var currentValue: seq<string> := [];
    var i := 0;
    while i < |lines|
      invariant 0 <= i <= |lines|
      invariant ScanFrom(Pending(fm, currentKey, currentValue), kinds[i..]) == ScanFrom(Start, kinds)
    {
      assert kinds[i..][1..] == kinds[i + 1..];
      assert kinds[i] == Classify(lines[i]);
      var keyMatch := KeyMatch(lines[i]);
      if keyMatch.Some? {
        if currentKey.Some? {
          fm := fm[currentKey.value := Trim(Join(currentValue, "\n"))];
        }
        currentKey := Some(keyMatch.value.0);
        currentValue := [keyMatch.value.1];
      } else if currentKey.Some? {
        currentValue := currentValue + [lines[i]];
      }
      i := i + 1;
    }
    if currentKey.Some? {
      fm := fm[currentKey.value := Trim(Join(currentValue, "\n"))];
    }
    ScanStoresSections(map[], kinds);
  }

  /** The array pass of `parseFrontMatter`. The entries are visited in an arbitrary
      order, which shows that the order does not matter. */
  method ConvertArrays(fm: map<string, string>) returns (r: Result<map<string, Value>, ParseError>)
    ensures r == ConvertAll(fm)
  {
    var result: map<string, Value> := map k | k in fm :: Str(fm[k]);
    var pending := fm.Keys;
    while pending != {}
      invariant pending <= fm.Keys && result.Keys == fm.Keys
      invariant forall k | k in fm && k !in pending :: ConvertValue(fm[k]) == Some(result[k])
      invariant forall k | k in pending :: result[k] == Str(fm[k])
      decreases |pending|
    {
      var key :| key in pending;
      var value := fm[key];
      if Bracketed(value) {
        var parsed := JsonStrings.DecodeArray(value);
        if parsed.None? {
          assert ConvertValue(fm[key]).None?;
          return Err(InvalidJson);
        }
        result := result[key := List(parsed.value)];
      }
      pending := pending - {key};
    }
    assert result == map k | k in fm :: ConvertValue(fm[k]).value;
    return Ok(result);
  }

  // ---------------------------------------------------------------------------
  // Reading time: `content.split(/\s+/).length` words, 200 words a minute

  predicate NoSpace(s: string)
  {
    forall k | 0 <= k < |s| :: !IsSpace(s[k])
  }

  /** The first index at or after `i` holding whitespace (or the end). */
  function NextSpace(s: string, i: nat): (j: nat)
    requires i <= |s|
    ensures i <= j <= |s| && (j == |s| || IsSpace(s[j]))
    ensures forall k | i <= k < j :: !IsSpace(s[k])
    decreases |s| - i
  {
    if i < |s| && !IsSpace(s[i]) then NextSpace(s, i + 1) else i
  }

  /** `s.split(/\s+/)`: the pieces between maximal runs of whitespace; a leading or
      trailing run gives an empty first or last piece. */
  function SplitOnSpaceRuns(s: string): (r: seq<string>)
    ensures |r| >= 1
    ensures forall k | 0 <= k < |r| :: NoSpace(r[k])
    decreases |s|
  {
    var n := NextSpace(s, 0);
    if n == |s| then [s] else [s[..n]] + SplitOnSpaceRuns(s[SpaceRunEnd(s, n)..])
  }

  /** The number of maximal runs of whitespace in `s`, when the character before it
      was whitespace exactly if `afterSpace`. */
  function RunsFrom(s: string, afterSpace: bool): nat
  {
    if s == [] then 0
    else (if IsSpace(s[0]) && !afterSpace then 1 else 0) + RunsFrom(s[1..], IsSpace(s[0]))
  }

  /** The number of maximal runs of whitespace in `s`. */
  function SpaceRuns(s: string): nat
  {
    RunsFrom(s, false)
  }

  function WordCount(content: string): nat
  {
    |SplitOnSpaceRuns(content)|
  }

  /** `estimateReadingTime`: the word count divided by 200, rounded up. */
  function EstimateReadingTime(content: string): (minutes: nat)
    ensures minutes >= 1
    ensures 200 * (minutes - 1) < WordCount(content) <= 200 * minutes
  {
    (WordCount(content) + 199) / 200
  }

  lemma {:induction false} RunsSkipNoSpace(t: string, n: nat)
    requires n <= |t| && forall k | 0 <= k < n :: !IsSpace(t[k])
    ensures RunsFrom(t, false) == RunsFrom(t[n..], false)
    decreases n
  {
    if n > 0 {
      RunsSkipNoSpace(t[1..], n - 1);
      assert t[1..][n - 1..] == t[n..];
    }
  }

  lemma {:induction false} RunsSkipSpace(t: string, n: nat)
    requires 0 < n <= |t| && forall k | 0 <= k < n :: IsSpace(t[k])
    ensures RunsFrom(t, true) == RunsFrom(t[n..], true)
    decreases n
  {
    if n > 1 {
      RunsSkipSpace(t[1..], n - 1);
      assert t[1..][n - 1..] == t[n..];
    }
  }

  /** The pieces are one more than the whitespace runs between them. */
  lemma {:induction false} WordCountIsRunsPlusOne(s: string)
    ensures WordCount(s) == SpaceRuns(s) + 1
    decreases |s|
  {
    var n := NextSpace(s, 0);
    RunsSkipNoSpace(s, n);
    if n < |s| {
      var e := SpaceRunEnd(s, n);
      RunsOverSpaceRun(s, n, e);
      WordCountIsRunsPlusOne(s[e..]);
      assert SplitOnSpaceRuns(s) == [s[..n]] + SplitOnSpaceRuns(s[e..]);
    } else {
      assert s[n..] == [];
    }
  }

  /** A maximal run of whitespace counts once. */
  lemma RunsOverSpaceRun(s: string, n: nat, e: nat)
    requires n < e <= |s| && (forall k | n <= k < e :: IsSpace(s[k])) && (e == |s| || !IsSpace(s[e]))
    ensures RunsFrom(s[n..], false) == 1 + RunsFrom(s[e..], false)
  {
    var t := s[n..];
    assert t[1..] == s[n + 1..];
    RunsSkipSpace(t, e - n);
    assert t[e - n..] == s[e..];
    if e < |s| {
      assert s[e..][0] == s[e];
    }
  }

  /** Words (non-empty, without whitespace) joined by single spaces are split back
      into the same words. */
  lemma {:induction false} SplitJoinedWords(words: seq<string>)
    requires |words| >= 1 && forall k | 0 <= k < |words| :: words[k] != [] && NoSpace(words[k])
    ensures SplitOnSpaceRuns(Join(words, " ")) == words
  {
    var s := Join(words, " ");
    var w := words[0];
    if |words| == 1 {
      assert NextSpace(s, 0) == |s|;
    } else {
      var rest := Join(words[1..], " ");
      SplitJoinedWords(words[1..]);
      assert s == w + " " + rest;
      assert NextSpace(s, 0) == |w| by {
        assert s[|w|] == ' ';
        assert forall k | 0 <= k < |w| :: s[k] == w[k];
      }
      assert rest == [] || !IsSpace(rest[0]) by {
        JoinStartsWithFirst(words[1..], " ");
      }
      assert SpaceRunEnd(s, |w|) == |w| + 1 by {
        assert s[|w| + 1..] == rest;
      }
      assert s[..|w|] == w && s[|w| + 1..] == rest;
      assert [w] + words[1..] == words;
    }
  }

  /** Text whose words are separated by single spaces reads for one minute per 200
      words, rounded up. */
  lemma ReadingTimeOfWords(words: seq<string>)
    requires |words| >= 1 && forall k | 0 <= k < |words| :: words[k] != [] && NoSpace(words[k])
    ensures EstimateReadingTime(Join(words, " ")) == (|words| + 199) / 200
  {
    SplitJoinedWords(words);
  }

  /** Leading whitespace counts as one more word: the split gives an empty first piece. */
  lemma LeadingSpaceCountsAsWord(s: string)
    requires s == [] || !IsSpace(s[0])
    ensures SplitOnSpaceRuns(" " + s) == [""] + SplitOnSpaceRuns(s)
  {
    var t := " " + s;
    assert NextSpace(t, 0) == 0;
    assert SpaceRunEnd(t, 0) == 1 by {
      assert t[1..] == s;
    }
    assert t[1..] == s;
  }

  /** Empty content, and content of only whitespace, still reads for one minute. */
  lemma BlankContentReadsOneMinute(s: string)
    requires forall k | 0 <= k < |s| :: IsSpace(s[k])
    ensures EstimateReadingTime(s) == 1
    ensures s != [] ==> WordCount(s) == 2
  {
    assert SplitOnSpaceRuns([]) == [[]] by {
      assert NextSpace([], 0) == 0;
    }
    if s != [] {
      assert NextSpace(s, 0) == 0;
      assert SpaceRunEnd(s, 0) == |s|;
      assert s[|s|..] == [];
      assert SplitOnSpaceRuns(s) == [[]] + [[]];
    }
  }
}
