/** The `.j2` template file parser (crates/anctl/src/cmd/template.rs). */
module TemplateFile {
  import opened Common

  // ── Text as the standard library sees it ──────────────────────────────────

  /** The characters with the Unicode property White_Space. */
  predicate IsWhite(c: char) {
    || '\t' <= c <= '\r' || c == ' ' || c == '\U{85}' || c == '\U{A0}' || c == '\U{1680}'
    || '\U{2000}' <= c <= '\U{200A}' || c == '\U{2028}' || c == '\U{2029}' || c == '\U{202F}'
    || c == '\U{205F}' || c == '\U{3000}'
  }

  function TrimStart(s: string): (r: string)
    ensures |r| <= |s| && (|r| == |s| ==> r == s)
  {
    if s != "" && IsWhite(s[0]) then TrimStart(s[1..]) else s
  }

  function TrimEnd(s: string): (r: string)
    ensures |r| <= |s| && (|r| == |s| ==> r == s)
  {
    if s != "" && IsWhite(s[|s| - 1]) then TrimEnd(s[..|s| - 1]) else s
  }

  function Trim(s: string): (r: string)
    ensures |r| <= |s| && (|r| == |s| ==> r == s)
  {
    TrimEnd(TrimStart(s))
  }

  /** The index of the first line feed, or the length. */
  function LineEnd(s: string): (n: nat)
    ensures n <= |s| && '\n' !in s[..n] && (n < |s| ==> s[n] == '\n')
  {
    if s == "" || s[0] == '\n' then 0 else 1 + LineEnd(s[1..])
  }

  function StripCr(line: string): string {
    if line != "" && line[|line| - 1] == '\r' then line[..|line| - 1] else line
  }

  /** Lines end at a line feed, which goes, with one carriage return before it; nothing
      follows a final line feed, and a last line without one stays as it is. */
  function Lines(s: string): seq<string>
    decreases |s|
  {
    if s == "" then []
    else
      var n := LineEnd(s);
      if n == |s| then [s] else [StripCr(s[..n])] + Lines(s[n + 1..])
  }

  function Join(lines: seq<string>): string {
    if lines == [] then ""
    else if |lines| == 1 then lines[0]
    else Join(lines[..|lines| - 1]) + "\n" + lines[|lines| - 1]
  }

  // ── Sections ──────────────────────────────────────────────────────────────

  datatype Marker = Subject | BodyHtml | BodyText

  function MarkerText(m: Marker): string {
    match m
    case Subject => "{# subject #}"
    case BodyHtml => "{# body_html #}"
    case BodyText => "{# body_text #}"
  }

  function KindOf(line: string): Option<Marker> {
    if Trim(line) == MarkerText(Subject) then Some(Subject)
    else if Trim(line) == MarkerText(BodyHtml) then Some(BodyHtml)
    else if Trim(line) == MarkerText(BodyText) then Some(BodyText)
    else None
  }

  predicate IsMarkerAt(lines: seq<string>, i: nat, m: Marker) {
    i < |lines| && KindOf(lines[i]) == Some(m)
  }

  /** The marker stands on exactly one line. */
  ghost predicate Once(lines: seq<string>, m: Marker) {
    exists i: nat :: IsMarkerAt(lines, i, m) && forall k: nat :: IsMarkerAt(lines, k, m) ==> k == i
  }

  ghost predicate EachOnce(lines: seq<string>) {
    forall m: Marker :: Once(lines, m)
  }

  /** The next marker line at or after `i`, or the end of the file. */
  function NextMarker(lines: seq<string>, i: nat): (n: nat)
    requires i <= |lines|
    ensures i <= n <= |lines| && (forall k :: i <= k < n ==> KindOf(lines[k]).None?)
    ensures n < |lines| ==> KindOf(lines[n]).Some?
    decreases |lines| - i
  {
    if i == |lines| || KindOf(lines[i]).Some? then i else NextMarker(lines, i + 1)
  }

  /** The lines between the marker on line `i` and the next one. */
  function SectionLines(lines: seq<string>, i: nat): seq<string>
    requires i < |lines|
  {
    lines[i + 1..NextMarker(lines, i + 1)]
  }

  /** Their trimmed text. */
  function SectionAt(lines: seq<string>, i: nat): string
    requires i < |lines|
  {
    Trim(Join(SectionLines(lines, i)))
  }

  datatype Sections = Sections(subject: string, bodyHtml: string, bodyText: string)
  {
    function Of(m: Marker): string {
      match m
      case Subject => subject
      case BodyHtml => bodyHtml
      case BodyText => bodyText
    }
  }

  /** `s` holds, for every marker, the text of a section it opens. */
  ghost predicate HoldsSections(lines: seq<string>, s: Sections) {
    forall m: Marker, i: nat :: IsMarkerAt(lines, i, m) ==> s.Of(m) == SectionAt(lines, i)
  }

  // ── The parser ────────────────────────────────────────────────────────────

  /** The three slots `parse_j2` fills. */
  class Slots {
    var subject: Option<string>
    var bodyHtml: Option<string>
    var bodyText: Option<string>

    constructor ()
      ensures forall m :: Of(m) == None
    {
      subject, bodyHtml, bodyText := None, None, None;
    }

    function Of(m: Marker): Option<string>
      reads this
    {
      match m
      case Subject => subject
      case BodyHtml => bodyHtml
      case BodyText => bodyText
    }

    /** Fails on a second section of the same name. */
    method StoreSection(m: Marker, content: string) returns (ok: bool)
      modifies this
      ensures ok == old(Of(m)).None?
      ensures forall k :: Of(k) == if ok && k == m then Some(content) else old(Of(k))
    {
      match m {
        case Subject =>
          if subject.Some? {
            return false;
          }
          subject := Some(content);
        case BodyHtml =>
          if bodyHtml.Some? {
            return false;
          }
          bodyHtml := Some(content);
        case BodyText =>
          if bodyText.Some? {
            return false;
          }
          bodyText := Some(content);
      }
      return true;
    }
  }

  /** What the loop's buffer holds after the lines of a section: blank lines before the
      first text leave no trace. */
  function Buffer(lines: seq<string>): string {
    if lines == [] then ""
    else
      var before := Buffer(lines[..|lines| - 1]);
      (if before == "" then "" else before + "\n") + lines[|lines| - 1]
  }

  lemma {:induction false} TrimStartAppend(x: string, y: string)
    ensures TrimStart(x + y) == if TrimStart(x) != "" then TrimStart(x) + y else TrimStart(y)
  {
    if x == "" {
      assert x + y == y;
    } else if IsWhite(x[0]) {
      TrimStartAppend(x[1..], y);
      assert (x + y)[1..] == x[1..] + y;
    }
  }

  lemma {:induction false} BufferTrimsLikeJoin(lines: seq<string>)
    ensures TrimStart(Buffer(lines)) == TrimStart(Join(lines))
  {
    if |lines| == 1 {
      assert Buffer(lines[..0]) == "" && "" + lines[0] == lines[0];
    } else if |lines| > 1 {
      var init, last := lines[..|lines| - 1], lines[|lines| - 1];
      BufferTrimsLikeJoin(init);
      var before := Buffer(init);
      assert Join(lines) == Join(init) + ("\n" + last);
      assert Buffer(lines) == if before == "" then last else before + ("\n" + last);
      TrimStartAppend(Join(init), "\n" + last);
      TrimStartAppend("\n", last);
      TrimStartAppend(before, "\n" + last);
      assert TrimStart("\n") == "" && TrimStart("") == "";
    }
  }

  /** The slot reflects the marker's sections that open before line `n`. */
  ghost predicate Filled(lines: seq<string>, n: nat, m: Marker, slot: Option<string>) {
    match slot
    case None => forall i: nat :: i < n ==> !IsMarkerAt(lines, i, m)
    case Some(text) =>
      exists i: nat :: i < n && IsMarkerAt(lines, i, m) && text == SectionAt(lines, i)
                       && forall k: nat :: k < n && IsMarkerAt(lines, k, m) ==> k == i
  }

  /** The loop's state before line `i`: no marker so far, or the latest one on line `at` with
      the text after it. */
  ghost predicate OpenAt(lines: seq<string>, i: nat, at: nat, current: Option<Marker>, buffer: string)
    requires i <= |lines|
  {
    && at <= i && (forall k :: at < k < i ==> KindOf(lines[k]).None?)
    && match current
       case None => at == 0 && (i > 0 ==> KindOf(lines[0]).None?)
       case Some(m) => at < i && IsMarkerAt(lines, at, m) && buffer == Buffer(lines[at + 1..i])
  }

  lemma OneMoreLine(lines: seq<string>, i: nat, at: nat, current: Option<Marker>, buffer: string)
    requires i < |lines| && OpenAt(lines, i, at, current, buffer) && KindOf(lines[i]).None?
    ensures OpenAt(lines, i + 1, at, current,
                   if current.Some? then (if buffer == "" then "" else buffer + "\n") + lines[i] else buffer)
  {
    if current.Some? {
      assert lines[at + 1..i + 1][..i - at - 1] == lines[at + 1..i];
    }
  }

  lemma OneMoreMarker(lines: seq<string>, i: nat, m: Marker)
    requires IsMarkerAt(lines, i, m)
    ensures OpenAt(lines, i + 1, i, Some(m), "")
  {
    assert lines[i + 1..i + 1] == [];
  }

  lemma NothingOpened(lines: seq<string>, i: nat, at: nat, buffer: string, m: Marker)
    requires i <= |lines| && OpenAt(lines, i, at, None, buffer)
    ensures Filled(lines, i, m, None)
  {
    forall k: nat | k < i ensures !IsMarkerAt(lines, k, m) {}
  }

  /** Succeeds exactly when each marker stands on one line, and then returns the trimmed
      text after each. */
  method ParseJ2(content: string) returns (r: Result<Sections, string>)
    ensures r.Ok? <==> EachOnce(Lines(content))
    ensures forall s :: r == Ok(s) <==> Parses(content, s)
  {
    r := ParseLines(Lines(content));
    forall s | Parses(content, s) ensures r == Ok(s) {
      OneReading(Lines(content), s, r.value);
    }
  }

  /** The file reads as `s`. */
  ghost predicate Parses(content: string, s: Sections) {
    EachOnce(Lines(content)) && HoldsSections(Lines(content), s)
  }

  lemma OneReading(lines: seq<string>, s: Sections, t: Sections)
    requires EachOnce(lines) && HoldsSections(lines, s) && HoldsSections(lines, t)
    ensures s == t
  {
    forall m: Marker ensures s.Of(m) == t.Of(m) {
      assert Once(lines, m);
      var i: nat :| IsMarkerAt(lines, i, m);
    }
    assert s.Of(Subject) == t.Of(Subject) && s.Of(BodyHtml) == t.Of(BodyHtml) && s.Of(BodyText) == t.Of(BodyText);
  }

  method ParseLines(lines: seq<string>) returns (r: Result<Sections, string>)
    ensures r.Ok? <==> EachOnce(lines)
    ensures r.Ok? ==> HoldsSections(lines, r.value)
  {
    var slots := new Slots();
    var current: Option<Marker> := None;
    var buffer := "";
    ghost var at := 0;
    for i := 0 to |lines|
      invariant fresh(slots)
      invariant OpenAt(lines, i, at, current, buffer)
      invariant AllFilled(lines, at, slots)
    {
      var ok;
      ok, current, buffer, at := Feed(lines, i, at, current, buffer, slots);
      if !ok {
        return Err("duplicate section");
      }
    }
    var ok := CloseSection(lines, at, |lines|, current, buffer, slots);
    if !ok {
      return Err("duplicate section");
    }
    r := Collect(lines, slots);
  }

  /** One line. */
  method Feed(lines: seq<string>, i: nat, ghost at: nat, current: Option<Marker>, buffer: string, slots: Slots)
    returns (ok: bool, current': Option<Marker>, buffer': string, ghost at': nat)
    requires i < |lines| && OpenAt(lines, i, at, current, buffer) && AllFilled(lines, at, slots)
    modifies slots
    ensures ok ==> OpenAt(lines, i + 1, at', current', buffer') && AllFilled(lines, at', slots)
    ensures !ok ==> !EachOnce(lines)
  {
    ok, current', buffer', at' := true, current, buffer, at;
    var kind := KindOf(lines[i]);
    if kind.Some? {
      ok := CloseSection(lines, at, i, current, buffer, slots);
      if ok {
        OneMoreMarker(lines, i, kind.value);
        current', buffer', at' := kind, "", i;
      }
    } else {
      OneMoreLine(lines, i, at, current, buffer);
      if current.Some? {
        if buffer' != "" {
          buffer' := buffer' + "\n";
        }
        buffer' := buffer' + lines[i];
      }
    }
  }

  ghost predicate AllFilled(lines: seq<string>, n: nat, slots: Slots)
    reads slots
  {
    forall m :: Filled(lines, n, m, slots.Of(m))
  }

  /** Ends the open section, if there is one. */
  method CloseSection(ghost lines: seq<string>, ghost at: nat, ghost end: nat, current: Option<Marker>, buffer: string,
                      slots: Slots)
    returns (ok: bool)
    requires end <= |lines| && OpenAt(lines, end, at, current, buffer)
    requires end < |lines| ==> KindOf(lines[end]).Some?
    requires AllFilled(lines, at, slots)
    modifies slots
    ensures ok ==> AllFilled(lines, end, slots)
    ensures !ok ==> !EachOnce(lines)
  {
    if current.Some? {
      ok := Close(lines, at, end, current.value, buffer, slots);
    } else {
      forall m ensures Filled(lines, end, m, slots.Of(m)) {
        NothingOpened(lines, end, at, buffer, m);
      }
      ok := true;
    }
  }

  /** Stores the section that opened at line `at` and ends before line `end`. */
  method Close(ghost lines: seq<string>, ghost at: nat, ghost end: nat, m: Marker, buffer: string,
               slots: Slots)
    returns (stored: bool)
    requires at < end <= |lines| && IsMarkerAt(lines, at, m) && buffer == Buffer(lines[at + 1..end])
    requires forall k :: at < k < end ==> KindOf(lines[k]).None?
    requires end < |lines| ==> KindOf(lines[end]).Some?
    requires AllFilled(lines, at, slots)
    modifies slots
    ensures stored ==> AllFilled(lines, end, slots)
    ensures !stored ==> !Once(lines, m)
  {
    ghost var before := slots.Of(m);
    stored := slots.StoreSection(m, Trim(buffer));
    BufferTrimsLikeJoin(lines[at + 1..end]);
    assert NextMarker(lines, at + 1) == end;
    if stored {
      forall k ensures Filled(lines, end, k, slots.Of(k)) {
        FilledFurther(lines, at, end, m, k, if k == m then before else slots.Of(k));
      }
    } else {
      ghost var i: nat :| i < at && IsMarkerAt(lines, i, m);
    }
  }

  lemma FilledFurther(lines: seq<string>, at: nat, end: nat, m: Marker, k: Marker, slot: Option<string>)
    requires at < end <= |lines| && IsMarkerAt(lines, at, m) && Filled(lines, at, k, slot)
    requires forall i :: at < i < end ==> KindOf(lines[i]).None?
    requires k == m ==> slot.None?
    ensures Filled(lines, end, k, if k == m then Some(SectionAt(lines, at)) else slot)
  {
    forall i: nat | i < end && IsMarkerAt(lines, i, k) ensures i < at || (i == at && k == m) {}
    if k == m {
      assert IsMarkerAt(lines, at, m) && forall i: nat :: i < end && IsMarkerAt(lines, i, m) ==> i == at;
    }
  }

  /** All three slots must be filled. */
  method Collect(ghost lines: seq<string>, slots: Slots) returns (r: Result<Sections, string>)
    requires AllFilled(lines, |lines|, slots)
    ensures r.Ok? <==> EachOnce(lines)
    ensures r.Ok? ==> HoldsSections(lines, r.value)
  {
    forall m ensures slots.Of(m).Some? <==> Once(lines, m) {
      FilledMeansOnce(lines, m, slots.Of(m));
    }
    if slots.subject.None? {
      assert !Once(lines, Subject);
      return Err("missing subject section");
    }
    if slots.bodyHtml.None? {
      assert !Once(lines, BodyHtml);
      return Err("missing body_html section");
    }
    if slots.bodyText.None? {
      assert !Once(lines, BodyText);
      return Err("missing body_text section");
    }
    r := Ok(Sections(slots.subject.value, slots.bodyHtml.value, slots.bodyText.value));
    forall m: Marker, i: nat | IsMarkerAt(lines, i, m) ensures r.value.Of(m) == SectionAt(lines, i) {
      assert Filled(lines, |lines|, m, slots.Of(m)) && slots.Of(m) == Some(r.value.Of(m));
    }
  }

  lemma FilledMeansOnce(lines: seq<string>, m: Marker, slot: Option<string>)
    requires Filled(lines, |lines|, m, slot)
    ensures slot.Some? <==> Once(lines, m)
  {
  }

  // ── What trimming and marker lines are ────────────────────────────────────

  predicate AllWhite(s: string) {
    forall c :: c in s ==> IsWhite(c)
  }

  /** Empty, or with other characters at both ends. */
  predicate Trimmed(s: string) {
    s == "" || (!IsWhite(s[0]) && !IsWhite(s[|s| - 1]))
  }

  lemma {:induction false} StartSplits(s: string) returns (a: string)
    ensures AllWhite(a) && s == a + TrimStart(s) && (TrimStart(s) == "" || !IsWhite(TrimStart(s)[0]))
  {
    a := "";
    if s != "" && IsWhite(s[0]) {
      var b := StartSplits(s[1..]);
      a := [s[0]] + b;
    }
  }

  lemma {:induction false} EndSplits(s: string) returns (b: string)
    ensures AllWhite(b) && s == TrimEnd(s) + b && (TrimEnd(s) == "" || !IsWhite(TrimEnd(s)[|TrimEnd(s)| - 1]))
  {
    b := "";
    if s != "" && IsWhite(s[|s| - 1]) {
      var a := EndSplits(s[..|s| - 1]);
      b := a + [s[|s| - 1]];
    }
  }

  lemma {:induction false} StartDrops(a: string, x: string)
    requires AllWhite(a)
    ensures TrimStart(a + x) == TrimStart(x)
  {
    if a == "" {
      assert a + x == x;
    } else {
      assert a[0] in a && (a + x)[1..] == a[1..] + x;
      StartDrops(a[1..], x);
    }
  }

  lemma {:induction false} EndDrops(x: string, b: string)
    requires AllWhite(b)
    ensures TrimEnd(x + b) == TrimEnd(x)
  {
    if b == "" {
      assert x + b == x;
    } else {
      assert b[|b| - 1] in b && (x + b)[..|x + b| - 1] == x + b[..|b| - 1];
      EndDrops(x, b[..|b| - 1]);
    }
  }

  /** `s` is `t` between white space. */
  ghost predicate Around(s: string, t: string, a: string, b: string) {
    AllWhite(a) && AllWhite(b) && s == a + t + b
  }

  /** Trimming leaves what stands between the white space at both ends. */
  lemma TrimIs(s: string, t: string)
    ensures Trim(s) == t <==> Trimmed(t) && exists a, b :: Around(s, t, a, b)
  {
    var u := TrimStart(s);
    var x := StartSplits(s);
    var y := EndSplits(u);
    assert Around(s, Trim(s), x, y) && Trimmed(Trim(s)) by {
      assert s == x + (Trim(s) + y);
      assert Trim(s) != "" ==> Trim(s)[0] == u[0];
    }
    if Trimmed(t) {
      forall a, b | Around(s, t, a, b) ensures Trim(s) == t {
        assert s == a + (t + b);
        StartDrops(a, t + b);
        if t == "" {
          assert t + b == b && b + "" == b;
          StartDrops(b, "");
        } else {
          EndDrops(t, b);
        }
      }
    }
  }

  lemma MarkerReads(m: Marker)
    ensures KindOf(MarkerText(m)) == Some(m)
  {
    var t := MarkerText(m);
    assert t[0] == '{' && t[|t| - 1] == '}';
    assert Trim(t) == t;
    assert |MarkerText(Subject)| == 13 && |MarkerText(BodyHtml)| == 15 && |MarkerText(BodyText)| == 15;
    assert MarkerText(BodyHtml)[8] == 'h' && MarkerText(BodyText)[8] == 't';
  }

  /** A line opens a section exactly if it holds the marker's text and nothing else but white
      space around it. */
  lemma MarkerLineIff(line: string, m: Marker)
    ensures KindOf(line) == Some(m) <==> exists a, b :: Around(line, MarkerText(m), a, b)
  {
    forall k: Marker ensures Trimmed(MarkerText(k)) && (MarkerText(k) == MarkerText(m) ==> k == m) {
      MarkerReads(k);
      MarkerReads(m);
      assert MarkerText(k)[0] == '{' && MarkerText(k)[|MarkerText(k)| - 1] == '}';
    }
    TrimIs(line, MarkerText(m));
  }

  // ── Printing and parsing back ─────────────────────────────────────────────

  function PrintSection(m: Marker, text: string): string {
    MarkerText(m) + "\n" + text + "\n"
  }

  /** A file with the sections in the given order. */
  function Print(order: seq<Marker>, s: Sections): string {
    if order == [] then "" else PrintSection(order[0], s.Of(order[0])) + Print(order[1..], s)
  }

  function Front(m: Marker, text: string): seq<string> {
    [MarkerText(m)] + Lines(text + "\n")
  }

  /** Its lines. */
  function PrintedLines(order: seq<Marker>, s: Sections): seq<string> {
    if order == [] then []
    else Front(order[0], s.Of(order[0])) + PrintedLines(order[1..], s)
  }

  lemma {:induction false} LineEndIs(h: string, t: string)
    requires '\n' !in h
    ensures LineEnd(h + "\n" + t) == |h|
  {
    if h != "" {
      LineEndIs(h[1..], t);
      assert (h + "\n" + t)[1..] == h[1..] + "\n" + t;
    }
  }

  /** A first line splits off. */
  lemma LinesFirst(h: string, t: string)
    requires '\n' !in h
    ensures Lines(h + "\n" + t) == [StripCr(h)] + Lines(t)
  {
    var s := h + "\n" + t;
    assert s[..|h|] == h && s[|h| + 1..] == t;
    LineEndIs(h, t);
  }

  lemma Glue<T>(first: seq<T>, t: seq<T>, y: seq<T>)
    ensures first + (t + y) == (first + t) + y
  {
  }

  lemma LinesConcatStep(h: string, t: string, y: string)
    requires '\n' !in h
    requires Lines(t + y) == Lines(t) + Lines(y)
    ensures Lines((h + "\n" + t) + y) == Lines(h + "\n" + t) + Lines(y)
  {
    Glue(h + "\n", t, y);
    Glue([StripCr(h)], Lines(t), Lines(y));
    LinesFirst(h, t);
    LinesFirst(h, t + y);
  }

  lemma SplitFirst(x: string) returns (h: string, t: string)
    requires '\n' in x
    ensures x == h + "\n" + t && '\n' !in h
  {
    var n := LineEnd(x);
    assert x[..|x|] == x;
    h, t := x[..n], x[n + 1..];
  }

  lemma {:induction false} LinesConcat(x: string, y: string)
    requires x != "" && x[|x| - 1] == '\n'
    ensures Lines(x + y) == Lines(x) + Lines(y)
    decreases |x|
  {
    var h, t := SplitFirst(x);
    if t != "" {
      assert t[|t| - 1] == x[|x| - 1];
      LinesConcat(t, y);
    } else {
      assert t + y == y;
    }
    LinesConcatStep(h, t, y);
  }

  lemma LinesOfSection(m: Marker, text: string, rest: string)
    ensures Lines(PrintSection(m, text) + rest) == [MarkerText(m)] + Lines(text + "\n") + Lines(rest)
  {
    var head, tail := MarkerText(m) + "\n", text + "\n";
    assert PrintSection(m, text) == head + tail;
    Glue(head, tail, rest);
    Glue([MarkerText(m)], Lines(tail), Lines(rest));
    OneLineMarker(m);
    LinesFirst(MarkerText(m), tail + rest);
    LinesConcat(tail, rest);
  }

  lemma OneLineMarker(m: Marker)
    ensures '\n' !in MarkerText(m) && StripCr(MarkerText(m)) == MarkerText(m)
  {
    assert MarkerText(m)[|MarkerText(m)| - 1] == '}';
  }

  lemma {:induction false} LinesOfPrint(order: seq<Marker>, s: Sections)
    ensures Lines(Print(order, s)) == PrintedLines(order, s)
  {
    if order != [] {
      LinesOfPrint(order[1..], s);
      LinesOfSection(order[0], s.Of(order[0]), Print(order[1..], s));
    }
  }

  // Counting marker lines.

  function Count(lines: seq<string>, m: Marker): nat {
    if lines == [] then 0 else (if KindOf(lines[0]) == Some(m) then 1 else 0) + Count(lines[1..], m)
  }

  lemma {:induction false} CountConcat(a: seq<string>, b: seq<string>, m: Marker)
    ensures Count(a + b, m) == Count(a, m) + Count(b, m)
  {
    if a == [] {
      assert a + b == b;
    } else {
      CountConcat(a[1..], b, m);
      assert (a + b)[1..] == a[1..] + b;
    }
  }

  lemma MarkersShift(lines: seq<string>, m: Marker)
    requires lines != []
    ensures forall i: nat :: IsMarkerAt(lines[1..], i, m) ==> IsMarkerAt(lines, i + 1, m)
    ensures forall i: nat :: IsMarkerAt(lines, i, m) && i > 0 ==> IsMarkerAt(lines[1..], i - 1, m)
  {
  }

  lemma {:induction false} CountZero(lines: seq<string>, m: Marker)
    ensures Count(lines, m) == 0 <==> forall i: nat :: !IsMarkerAt(lines, i, m)
  {
    if lines != [] {
      CountZero(lines[1..], m);
      MarkersShift(lines, m);
      assert KindOf(lines[0]) == Some(m) <==> IsMarkerAt(lines, 0, m);
    }
  }

  lemma OnceAtHead(lines: seq<string>, m: Marker)
    requires IsMarkerAt(lines, 0, m)
    ensures Once(lines, m) <==> Count(lines[1..], m) == 0
  {
    CountZero(lines[1..], m);
    MarkersShift(lines, m);
  }

  lemma MarkerShift(lines: seq<string>, i: nat, m: Marker)
    requires lines != []
    ensures IsMarkerAt(lines[1..], i, m) <==> IsMarkerAt(lines, i + 1, m)
  {
  }

  lemma OnceAfterHead(lines: seq<string>, m: Marker)
    requires lines != [] && !IsMarkerAt(lines, 0, m)
    ensures Once(lines, m) <==> Once(lines[1..], m)
  {
    var rest := lines[1..];
    if Once(rest, m) {
      var i: nat :| IsMarkerAt(rest, i, m) && forall k: nat :: IsMarkerAt(rest, k, m) ==> k == i;
      MarkerShift(lines, i, m);
      forall k: nat | IsMarkerAt(lines, k, m) ensures k == i + 1 {
        MarkerShift(lines, k - 1, m);
      }
    }
    if Once(lines, m) {
      var i: nat :| IsMarkerAt(lines, i, m) && forall k: nat :: IsMarkerAt(lines, k, m) ==> k == i;
      MarkerShift(lines, i - 1, m);
      forall k: nat | IsMarkerAt(rest, k, m) ensures k == i - 1 {
        MarkerShift(lines, k, m);
      }
    }
  }

  lemma {:induction false} OnceIsCountOne(lines: seq<string>, m: Marker)
    ensures Once(lines, m) <==> Count(lines, m) == 1
  {
    if lines != [] {
      if IsMarkerAt(lines, 0, m) {
        OnceAtHead(lines, m);
      } else {
        OnceAfterHead(lines, m);
        OnceIsCountOne(lines[1..], m);
      }
    }
  }

  /** No line of the text reads as a marker. */
  ghost predicate MarkerFree(text: string) {
    forall m: Marker :: Count(Lines(text + "\n"), m) == 0
  }

  lemma CountPrintedHead(order: seq<Marker>, s: Sections, k: Marker)
    requires order != []
    ensures Count(PrintedLines(order, s), k)
            == (if order[0] == k then 1 else 0)
               + Count(Lines(s.Of(order[0]) + "\n"), k) + Count(PrintedLines(order[1..], s), k)
  {
    var head, body, rest := [MarkerText(order[0])], Lines(s.Of(order[0]) + "\n"), PrintedLines(order[1..], s);
    MarkerReads(order[0]);
    CountConcat(head + body, rest, k);
    CountConcat(head, body, k);
    assert head[1..] == [];
  }

  /** A printed file has each marker of the order once if no text contains one, and too many
      of some marker if one does. */
  lemma {:induction false} CountPrinted(order: seq<Marker>, s: Sections, k: Marker)
    requires Distinct(order)
    ensures (forall m :: m in order ==> Count(Lines(s.Of(m) + "\n"), k) == 0) ==>
              Count(PrintedLines(order, s), k) == if k in order then 1 else 0
    ensures forall m :: m in order ==>
              Count(PrintedLines(order, s), k) >= (if k in order then 1 else 0) + Count(Lines(s.Of(m) + "\n"), k)
    ensures Count(PrintedLines(order, s), k) >= if k in order then 1 else 0
  {
    if order != [] {
      var rest := order[1..];
      assert order == [order[0]] + rest;
      assert order[0] !in rest;
      CountPrintedHead(order, s, k);
      CountPrinted(rest, s, k);
    }
  }

  // Where sections end.

  lemma {:induction false} NextIs(lines: seq<string>, i: nat, n: nat)
    requires i <= n <= |lines| && (forall k :: i <= k < n ==> KindOf(lines[k]).None?)
    requires n < |lines| ==> KindOf(lines[n]).Some?
    ensures NextMarker(lines, i) == n
    decreases n - i
  {
    if i < n {
      NextIs(lines, i + 1, n);
    }
  }

  lemma NextShift(a: seq<string>, b: seq<string>, i: nat)
    requires i <= |b|
    ensures NextMarker(a + b, |a| + i) == |a| + NextMarker(b, i)
  {
    var all, n := a + b, NextMarker(b, i);
    forall k | |a| + i <= k < |a| + n ensures KindOf(all[k]).None? {
      assert all[k] == b[k - |a|];
    }
    NextIs(all, |a| + i, |a| + n);
  }

  lemma SliceShift<T>(a: seq<T>, b: seq<T>, i: nat, n: nat)
    requires i <= n <= |b|
    ensures (a + b)[|a| + i..|a| + n] == b[i..n]
  {
  }

  lemma SectionShift(a: seq<string>, b: seq<string>, i: nat)
    requires i < |b|
    ensures SectionLines(a + b, |a| + i) == SectionLines(b, i)
  {
    NextShift(a, b, i + 1);
    SliceShift(a, b, i + 1, NextMarker(b, i + 1));
  }

  lemma MarkersAfterFront(front: seq<string>, rest: seq<string>, i: nat, m: Marker)
    requires front != [] && forall k :: 1 <= k < |front| ==> KindOf(front[k]).None?
    requires i > 0 && IsMarkerAt(front + rest, i, m)
    ensures i >= |front| && IsMarkerAt(rest, i - |front|, m)
  {
    assert forall k :: 0 <= k < |front| ==> (front + rest)[k] == front[k];
  }

  lemma FirstSection(m: Marker, body: seq<string>, rest: seq<string>)
    requires forall k :: 0 <= k < |body| ==> KindOf(body[k]).None?
    requires rest != [] ==> KindOf(rest[0]).Some?
    ensures SectionLines([MarkerText(m)] + body + rest, 0) == body
  {
    var all := [MarkerText(m)] + body + rest;
    NextIs(all, 1, 1 + |body|);
    assert all[1..1 + |body|] == body;
  }

  lemma NoMarkerLine(text: string)
    requires MarkerFree(text)
    ensures forall k :: 0 <= k < |Lines(text + "\n")| ==> KindOf(Lines(text + "\n")[k]).None?
  {
    var lines := Lines(text + "\n");
    forall m: Marker, k: nat ensures !IsMarkerAt(lines, k, m) {
      CountZero(lines, m);
    }
    forall k: nat | k < |lines| ensures KindOf(lines[k]).None? {
      assert !IsMarkerAt(lines, k, Subject) && !IsMarkerAt(lines, k, BodyHtml) && !IsMarkerAt(lines, k, BodyText);
    }
  }

  lemma PrintedFirst(order: seq<Marker>, s: Sections)
    requires order != [] && MarkerFree(s.Of(order[0]))
    ensures SectionLines(PrintedLines(order, s), 0) == Lines(s.Of(order[0]) + "\n")
  {
    NoMarkerLine(s.Of(order[0]));
    if order[1..] != [] {
      MarkerReads(order[1]);
    }
    FirstSection(order[0], Lines(s.Of(order[0]) + "\n"), PrintedLines(order[1..], s));
  }

  lemma LaterSection(front: seq<string>, rest: seq<string>, i: nat, m: Marker) returns (j: nat)
    requires front != [] && forall k :: 1 <= k < |front| ==> KindOf(front[k]).None?
    requires i > 0 && IsMarkerAt(front + rest, i, m)
    ensures IsMarkerAt(rest, j, m) && SectionLines(front + rest, i) == SectionLines(rest, j)
  {
    MarkersAfterFront(front, rest, i, m);
    j := i - |front|;
    SectionShift(front, rest, j);
  }

  lemma FrontHasOneMarker(m: Marker, text: string)
    requires MarkerFree(text)
    ensures forall k :: 1 <= k < |Front(m, text)| ==> KindOf(Front(m, text)[k]).None?
  {
    NoMarkerLine(text);
    assert forall k :: 1 <= k < |Front(m, text)| ==> Front(m, text)[k] == Lines(text + "\n")[k - 1];
  }

  /** What the parser reads after each marker of a printed file. */
  lemma {:induction false} PrintedSections(order: seq<Marker>, s: Sections, i: nat, m: Marker)
    requires forall k :: k in order ==> MarkerFree(s.Of(k))
    requires IsMarkerAt(PrintedLines(order, s), i, m)
    ensures m in order && SectionLines(PrintedLines(order, s), i) == Lines(s.Of(m) + "\n")
  {
    assert order[0] in order;
    if i == 0 {
      MarkerReads(order[0]);
      PrintedFirst(order, s);
    } else {
      FrontHasOneMarker(order[0], s.Of(order[0]));
      var j := LaterSection(Front(order[0], s.Of(order[0])), PrintedLines(order[1..], s), i, m);
      PrintedSections(order[1..], s, j, m);
    }
  }

  // What lines and join do to a text.

  predicate HasCrLf(s: string) {
    exists i :: 0 <= i < |s| - 1 && s[i] == '\r' && s[i + 1] == '\n'
  }

  lemma {:induction false} JoinFront(x: string, rest: seq<string>)
    requires rest != []
    ensures Join([x] + rest) == x + "\n" + Join(rest)
  {
    var all := [x] + rest;
    if |rest| > 1 {
      var init := rest[..|rest| - 1];
      JoinFront(x, init);
      assert all[..|all| - 1] == [x] + init;
      assert (x + "\n" + Join(init)) + "\n" + rest[|rest| - 1] == x + "\n" + (Join(init) + "\n" + rest[|rest| - 1]);
    } else {
      assert all[..1] == [x];
    }
  }

  function Reflow(text: string): string {
    Join(Lines(text + "\n"))
  }

  /** Splitting a text into lines and joining them again only ever drops carriage returns,
      and none exactly if no line ends in one. */
  lemma {:induction false} ReflowKeeps(text: string)
    ensures |Reflow(text)| <= |text|
    ensures |Reflow(text)| == |text| ==> Reflow(text) == text
    ensures Reflow(text) == text <==> !HasCrLf(text + "\n")
    decreases |text|
  {
    var n := LineEnd(text);
    var h := text[..n];
    if n == |text| {
      assert h == text && text + "\n" == h + "\n" + "";
      LinesFirst(h, "");
      assert Lines(text + "\n") == [StripCr(h)];
      LastLineCrLf(h);
    } else {
      var t := text[n + 1..];
      assert text == h + "\n" + t && text + "\n" == h + "\n" + (t + "\n");
      LinesFirst(h, t + "\n");
      JoinFront(StripCr(h), Lines(t + "\n"));
      ReflowKeeps(t);
      FirstLineCrLf(h, t + "\n");
      assert Reflow(text) == StripCr(h) + "\n" + Reflow(t);
      if Reflow(text) == text {
        assert |StripCr(h)| == |h| && |Reflow(t)| == |t|;
      }
    }
  }

  lemma LastLineCrLf(h: string)
    requires '\n' !in h
    ensures StripCr(h) == h <==> !HasCrLf(h + "\n")
  {
    var s := h + "\n";
    assert forall k :: 0 <= k < |h| ==> s[k] == h[k] && h[k] != '\n';
    if h != "" && h[|h| - 1] == '\r' {
      assert s[|h| - 1] == '\r' && s[|h| - 1 + 1] == '\n';
    }
    if HasCrLf(s) {
      var i :| 0 <= i < |s| - 1 && s[i] == '\r' && s[i + 1] == '\n';
      assert i + 1 == |h|;
    }
  }

  lemma FirstLineCrLf(h: string, t: string)
    requires '\n' !in h
    ensures HasCrLf(h + "\n" + t) <==> StripCr(h) != h || HasCrLf(t)
  {
    var s := h + "\n" + t;
    LastLineCrLf(h);
    if HasCrLf(h + "\n") {
      var i :| 0 <= i < |h + "\n"| - 1 && (h + "\n")[i] == '\r' && (h + "\n")[i + 1] == '\n';
      assert s[i] == '\r' && s[i + 1] == '\n';
    }
    if HasCrLf(t) {
      var i :| 0 <= i < |t| - 1 && t[i] == '\r' && t[i + 1] == '\n';
      var k := |h| + 1 + i;
      assert s[k] == t[i] && s[k + 1] == t[i + 1];
    }
    if HasCrLf(s) {
      var i :| 0 <= i < |s| - 1 && s[i] == '\r' && s[i + 1] == '\n';
      if i > |h| {
        assert t[i - |h| - 1] == '\r' && t[i - |h| - 1 + 1] == '\n';
      } else {
        assert (h + "\n")[i] == '\r';
        assert i < |h| && (h + "\n")[i + 1] == '\n';
      }
    }
  }

  /** A text that comes back from a file as it went in: trimmed, without line ends of two
      characters and without marker lines. */
  ghost predicate Clean(text: string) {
    Trim(text) == text && !HasCrLf(text) && MarkerFree(text)
  }

  lemma TrimmedEnd(text: string)
    requires Trim(text) == text && text != ""
    ensures !IsWhite(text[|text| - 1])
  {
    assert TrimStart(text) == text;
    assert TrimEnd(text) == text;
  }

  lemma ReadsBack(text: string)
    ensures Trim(Reflow(text)) == text <==> Trim(text) == text && !HasCrLf(text)
  {
    ReflowKeeps(text);
    if HasCrLf(text) {
      var i :| 0 <= i < |text| - 1 && text[i] == '\r' && text[i + 1] == '\n';
      assert (text + "\n")[i] == '\r' && (text + "\n")[i + 1] == '\n';
    }
    if Trim(text) == text && HasCrLf(text + "\n") {
      var i :| 0 <= i < |text + "\n"| - 1 && (text + "\n")[i] == '\r' && (text + "\n")[i + 1] == '\n';
      if i < |text| - 1 {
        assert text[i] == '\r' && text[i + 1] == '\n';
      } else {
        TrimmedEnd(text);
      }
    }
  }

  /** The round trip: whatever the order, three sections printed and parsed come back
      unchanged exactly when each is trimmed, free of CR LF and free of marker lines. */
  lemma RoundTrip(order: seq<Marker>, s: Sections)
    requires Distinct(order) && forall m: Marker :: m in order
    ensures Parses(Print(order, s), s) <==> forall m: Marker :: Clean(s.Of(m))
  {
    var lines := PrintedLines(order, s);
    LinesOfPrint(order, s);
    forall m: Marker ensures Once(lines, m) <==> Count(lines, m) == 1 {
      OnceIsCountOne(lines, m);
    }
    EachOnceIffMarkerFree(order, s);
    if forall m: Marker :: MarkerFree(s.Of(m)) {
      forall m: Marker
        ensures (exists i: nat :: IsMarkerAt(lines, i, m)) && (Trim(Reflow(s.Of(m))) == s.Of(m) <==> Clean(s.Of(m)))
      {
        assert Once(lines, m);
        ReadsBack(s.Of(m));
      }
      forall m: Marker, i: nat | IsMarkerAt(lines, i, m) ensures SectionAt(lines, i) == Trim(Reflow(s.Of(m))) {
        PrintedSections(order, s, i, m);
      }
    }
  }

  lemma EachOnceIffMarkerFree(order: seq<Marker>, s: Sections)
    requires Distinct(order) && forall m: Marker :: m in order
    ensures EachOnce(PrintedLines(order, s)) <==> forall m: Marker :: MarkerFree(s.Of(m))
  {
    var lines := PrintedLines(order, s);
    forall k: Marker
      ensures Once(lines, k) <==> forall m: Marker :: Count(Lines(s.Of(m) + "\n"), k) == 0
    {
      OnceIsCountOne(lines, k);
      CountPrinted(order, s, k);
    }
    if EachOnce(lines) {
      forall m: Marker, k: Marker ensures Count(Lines(s.Of(m) + "\n"), k) == 0 {
        assert Once(lines, k);
      }
    }
    if forall m: Marker :: MarkerFree(s.Of(m)) {
      forall k: Marker ensures Once(lines, k) {
        assert forall m: Marker :: MarkerFree(s.Of(m)) ==> Count(Lines(s.Of(m) + "\n"), k) == 0;
      }
    }
  }
}
