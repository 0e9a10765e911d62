/** `patch_position_for_new_line` of src/checker/multi_review/posting.rs: the place in a file's patch of a
    line of the new file, for an inline comment. */
module PatchPosition {
  import opened Options

  const U32 := 0x1_0000_0000

  predicate IsSpace(c: char): (space: bool)
    ensures space <==> c == ' ' || c == '\t' || c == '\n' || c == '\U{000B}' || c == '\U{000C}' || c == '\r'
  {
    c == ' ' || '\t' <= c <= '\r'
  }

  /** The text up to the first whitespace. */
  function Word(line: string): (w: string)
    ensures |w| <= |line| && w == line[..|w|]
    ensures line != "" && !IsSpace(line[0]) ==> w != ""
  {
    if line == "" || IsSpace(line[0]) then "" else [line[0]] + Word(line[1..])
  }

  /** The first word that starts with a plus sign. */
  function FindPlus(line: string): Option<string>
    decreases |line|
  {
    if line == "" then None
    else if IsSpace(line[0]) then FindPlus(line[1..])
    else if line[0] == '+' then Some(Word(line))
    else FindPlus(line[|Word(line)|..])
  }

  function TrimPlus(s: string): string {
    if s != "" && s[0] == '+' then TrimPlus(s[1..]) else s
  }

  function BeforeComma(s: string): string {
    if s == "" || s[0] == ',' then "" else [s[0]] + BeforeComma(s[1..])
  }

  predicate IsDigit(c: char) {
    '0' <= c <= '9'
  }

  /** The value of decimal digits, `None` for anything else. */
  function Value(s: string): Option<nat>
    decreases |s|
  {
    if s == "" then None
    else
      var last := |s| - 1;
      if !IsDigit(s[last]) then None
      else
        var digit := s[last] as nat - '0' as nat;
        if last == 0 then Some(digit)
        else match Value(s[..last])
          case None => None
          case Some(high) => Some(10 * high + digit)
  }

  function ParseU32(s: string): Option<nat> {
    var v := Value(s);
    if v.Some? && v.value >= U32 then None else v
  }

  /** What the scan reads in a line: a header with what it finds for the new side's start, a line of
      the old side, or one that it counts. */
  datatype Kind = Header(start: Start) | OldSide | NewSide

  datatype Start = NoPlus | NotANumber | StartAt(n: nat)

  function KindOf(line: string): Kind {
    if |line| >= 2 && line[0] == '@' && line[1] == '@' then
      match FindPlus(line)
      case None => Header(NoPlus)
      case Some(plus) => (match ParseU32(BeforeComma(TrimPlus(plus)))
        case None => Header(NotANumber)
        case Some(n) => Header(StartAt(n)))
    else if line != "" && line[0] == '-' then OldSide
    else NewSide
  }

  /** A line is a header by its first two characters, and of the old side by its first. */
  lemma KindsByPrefix(line: string)
    ensures KindOf(line).Header? <==> "@@" <= line
    ensures KindOf(line) == OldSide <==> "-" <= line
  {
    assert "@@" <= line <==> |line| >= 2 && line[0] == '@' && line[1] == '@';
  }

  function Kinds(lines: seq<string>): (kinds: seq<Kind>)
    ensures |kinds| == |lines| && forall i :: 0 <= i < |lines| ==> kinds[i] == KindOf(lines[i])
  {
    if lines == [] then [] else [KindOf(lines[0])] + Kinds(lines[1..])
  }

  function Next(counter: Option<nat>, kind: Kind): Option<nat> {
    if counter.None? then None
    else match kind
      case NewSide => Some(counter.value + 1)
      case OldSide => counter
      case Header(NoPlus) => counter
      case Header(NotANumber) => None
      case Header(StartAt(n)) => Some(if n == 0 then 0 else n - 1)
  }

  /** The new-side line counter after `k` lines, from `c`: `None` once a header has a start that is
      no number. */
  function CounterFrom(c: Option<nat>, kinds: seq<Kind>, k: nat): Option<nat>
    requires k <= |kinds|
    decreases k
  {
    if k == 0 then c else CounterFrom(Next(c, kinds[0]), kinds[1..], k - 1)
  }

  lemma {:induction false} CounterNext(c: Option<nat>, kinds: seq<Kind>, k: nat)
    requires k < |kinds|
    ensures CounterFrom(c, kinds, k + 1) == Next(CounterFrom(c, kinds, k), kinds[k])
    decreases k
  {
    if k > 0 {
      CounterNext(Next(c, kinds[0]), kinds[1..], k - 1);
    }
  }

  function Counter(kinds: seq<Kind>, k: nat): Option<nat>
    requires k <= |kinds|
  {
    CounterFrom(Some(0), kinds, k)
  }

  /** The scan takes the `p`th line, from 1, for line `target` of the new file. */
  predicate Takes(kinds: seq<Kind>, p: nat, target: nat) {
    1 <= p <= |kinds| && kinds[p - 1].NewSide? && Counter(kinds, p) == Some(target)
  }

  ghost predicate FirstTaken(kinds: seq<Kind>, target: nat, found: Option<nat>) {
    && (found.Some? ==> Takes(kinds, found.value, target))
    && forall p :: Takes(kinds, p, target) ==> found.Some? && found.value <= p
  }

  lemma {:induction false} CounterStaysNone(kinds: seq<Kind>, k: nat, l: nat)
    requires k <= l <= |kinds| && Counter(kinds, k).None?
    ensures Counter(kinds, l).None?
  {
    if k < l {
      CounterStaysNone(kinds, k, l - 1);
      CounterNext(Some(0), kinds, l - 1);
    }
  }

  lemma NothingAfterABadHeader(kinds: seq<Kind>, k: nat, target: nat)
    requires k <= |kinds| && Counter(kinds, k).None?
    ensures forall p :: p >= k ==> !Takes(kinds, p, target)
  {
    forall p | p >= k ensures !Takes(kinds, p, target) {
      if p <= |kinds| {
        CounterStaysNone(kinds, k, p);
      }
    }
  }

  /** The scan has come to `pos` with the counter at `newLine`, and found nothing. */
  ghost predicate Scanned(kinds: seq<Kind>, pos: nat, newLine: nat, target: nat) {
    && pos <= |kinds| && Counter(kinds, pos) == Some(newLine)
    && forall p: nat :: p <= pos ==> !Takes(kinds, p, target)
  }

  lemma ScannedNext(kinds: seq<Kind>, pos: nat, newLine: nat, target: nat)
    requires pos < |kinds| && Scanned(kinds, pos, newLine, target)
    ensures match kinds[pos]
            case NewSide =>
              if newLine + 1 == target then FirstTaken(kinds, target, Some(pos + 1))
              else Scanned(kinds, pos + 1, newLine + 1, target)
            case OldSide => Scanned(kinds, pos + 1, newLine, target)
            case Header(NoPlus) => Scanned(kinds, pos + 1, newLine, target)
            case Header(NotANumber) => FirstTaken(kinds, target, None)
            case Header(StartAt(n)) => Scanned(kinds, pos + 1, if n == 0 then 0 else n - 1, target)
  {
    CounterNext(Some(0), kinds, pos);
    if kinds[pos] == Header(NotANumber) {
      NothingAfterABadHeader(kinds, pos + 1, target);
    }
  }

  method PatchPositionForNewLine(lines: seq<string>, target: nat) returns (found: Option<nat>)
    ensures FirstTaken(Kinds(lines), target, found)
  {
    ghost var kinds := Kinds(lines);
    var pos, newLine: nat := 0, 0;
    while pos < |lines|
      invariant Scanned(kinds, pos, newLine, target)
    {
      ScannedNext(kinds, pos, newLine, target);
      var kind := KindOf(lines[pos]);
      pos := pos + 1;
      match kind {
        case Header(NoPlus) =>
        case Header(NotANumber) =>
          return None;
        case Header(StartAt(start)) =>
          newLine := if start == 0 then 0 else start - 1;
        case OldSide =>
        case NewSide =>
          newLine := newLine + 1;
          if newLine == target {
            return Some(pos);
          }
      }
    }
    return None;
  }

  // ---- Patches in the unified format ----

  /** `Marker` is the line that says that the line above it ends its file without a newline. */
  datatype HunkLine = Context(text: string) | Added(text: string) | Removed(text: string) | Marker

  datatype Range = Range(start: nat, count: Option<nat>)

  datatype Hunk = Hunk(oldSide: Range, newSide: Range, section: string, lines: seq<HunkLine>)

  function Decimal(n: nat): string {
    (if n < 10 then "" else Decimal(n / 10)) + [('0' as nat + n % 10) as char]
  }

  function RenderRange(r: Range): string {
    Decimal(r.start) + if r.count.Some? then "," + Decimal(r.count.value) else ""
  }

  function RenderHeader(h: Hunk): string {
    "@@" + (" " + (("-" + RenderRange(h.oldSide)) + (" " + (("+" + RenderRange(h.newSide)) + (" @@" + h.section)))))
  }

  function RenderLine(l: HunkLine): string {
    match l
    case Context(text) => " " + text
    case Added(text) => "+" + text
    case Removed(text) => "-" + text
    case Marker => "\\ No newline at end of file"
  }

  function RenderLines(lines: seq<HunkLine>): (rendered: seq<string>)
    ensures |rendered| == |lines| && forall i :: 0 <= i < |lines| ==> rendered[i] == RenderLine(lines[i])
  {
    if lines == [] then [] else [RenderLine(lines[0])] + RenderLines(lines[1..])
  }

  function Patch(hunks: seq<Hunk>): seq<string> {
    if hunks == [] then []
    else
      var last := |hunks| - 1;
      Patch(hunks[..last]) + ([RenderHeader(hunks[last])] + RenderLines(hunks[last].lines))
  }

  /** What a line of a patch is to the new file: its line of that number, none, or no line at all. */
  datatype Place = Number(n: nat) | NotThere | OfMarker

  /** The places of a hunk's lines, when the next line of the new file is `next`. */
  function Places(lines: seq<HunkLine>, next: nat): (places: seq<Place>)
    ensures |places| == |lines|
  {
    if lines == [] then []
    else match lines[0]
      case Context(_) => [Number(next)] + Places(lines[1..], next + 1)
      case Added(_) => [Number(next)] + Places(lines[1..], next + 1)
      case Removed(_) => [NotThere] + Places(lines[1..], next)
      case Marker => [OfMarker] + Places(lines[1..], next)
  }

  /** For each line of a hunk the markers above it. */
  function MarkersAbove(lines: seq<HunkLine>, above: nat): (markers: seq<nat>)
    ensures |markers| == |lines|
  {
    if lines == [] then []
    else [above] + MarkersAbove(lines[1..], if lines[0].Marker? then above + 1 else above)
  }

  /** Where a hunk's new side begins. A start of 0 stands for an empty one. */
  function First(h: Hunk): nat {
    if h.newSide.start == 0 then 1 else h.newSide.start
  }

  function HunkPlaces(h: Hunk): seq<Place> {
    [NotThere] + Places(h.lines, First(h))
  }

  function HunkMarkers(h: Hunk): seq<nat> {
    [0] + MarkersAbove(h.lines, 0)
  }

  function PatchPlaces(hunks: seq<Hunk>): (places: seq<Place>)
    ensures |places| == |Patch(hunks)|
  {
    if hunks == [] then []
    else
      var last := |hunks| - 1;
      PatchPlaces(hunks[..last]) + HunkPlaces(hunks[last])
  }

  function Markers(hunks: seq<Hunk>): (markers: seq<nat>)
    ensures |markers| == |Patch(hunks)|
  {
    if hunks == [] then []
    else
      var last := |hunks| - 1;
      Markers(hunks[..last]) + HunkMarkers(hunks[last])
  }

  // ---- Reading a rendered header ----

  predicate AllDigits(s: string) {
    s != "" && forall i :: 0 <= i < |s| ==> IsDigit(s[i])
  }

  lemma {:induction false} DecimalReadsBack(n: nat)
    ensures AllDigits(Decimal(n)) && Value(Decimal(n)) == Some(n)
  {
    if n >= 10 {
      DecimalReadsBack(n / 10);
      var s := Decimal(n);
      assert s[..|s| - 1] == Decimal(n / 10);
    }
  }

  lemma {:induction false} WordIs(w: string, rest: string)
    requires forall i :: 0 <= i < |w| ==> !IsSpace(w[i])
    requires rest == "" || IsSpace(rest[0])
    ensures Word(w + rest) == w
  {
    if w == "" {
      assert w + rest == rest;
    } else {
      assert (w + rest)[1..] == w[1..] + rest;
      WordIs(w[1..], rest);
    }
  }

  lemma {:induction false} BeforeCommaIs(digits: string, rest: string)
    requires forall i :: 0 <= i < |digits| ==> IsDigit(digits[i])
    requires rest == "" || rest[0] == ','
    ensures BeforeComma(digits + rest) == digits
  {
    if digits == "" {
      assert digits + rest == rest;
    } else {
      assert (digits + rest)[1..] == digits[1..] + rest;
      BeforeCommaIs(digits[1..], rest);
    }
  }

  lemma RangeIsAWord(r: Range)
    ensures var s := RenderRange(r); s != "" && IsDigit(s[0]) && forall i :: 0 <= i < |s| ==> !IsSpace(s[i])
  {
    DecimalReadsBack(r.start);
    if r.count.Some? {
      DecimalReadsBack(r.count.value);
    }
  }

  /** A word that does not start with a plus sign is passed over. */
  lemma WordIsSkipped(w: string, rest: string)
    requires w != "" && w[0] != '+' && forall i :: 0 <= i < |w| ==> !IsSpace(w[i])
    ensures FindPlus(w + (" " + rest)) == FindPlus(rest)
  {
    WordIs(w, " " + rest);
    assert (w + (" " + rest))[|w|..] == " " + rest && (" " + rest)[1..] == rest;
  }

  /** The whole words of a header, before its section. */
  lemma HeaderFindsItsPlus(h: Hunk)
    ensures FindPlus(RenderHeader(h)) == Some("+" + RenderRange(h.newSide))
  {
    var minus, plus, tail := "-" + RenderRange(h.oldSide), "+" + RenderRange(h.newSide), " @@" + h.section;
    RangeIsAWord(h.oldSide);
    RangeIsAWord(h.newSide);
    WordIsSkipped("@@", minus + (" " + (plus + tail)));
    WordIsSkipped(minus, plus + tail);
    WordIs(plus, tail);
  }

  /** A rendered header reads back its start, unless that is too large for the scan's 32 bits. */
  lemma HeaderHasItsStart(h: Hunk)
    ensures KindOf(RenderHeader(h)) ==
      Header(if h.newSide.start < 0x1_0000_0000 then StartAt(h.newSide.start) else NotANumber)
  {
    var range := RenderRange(h.newSide);
    HeaderFindsItsPlus(h);
    RangeIsAWord(h.newSide);
    assert ("+" + range)[1..] == range && TrimPlus("+" + range) == TrimPlus(range) == range;
    DecimalReadsBack(h.newSide.start);
    BeforeCommaIs(Decimal(h.newSide.start), if h.newSide.count.Some? then "," + Decimal(h.newSide.count.value) else "");
  }

  function LineKinds(lines: seq<HunkLine>): (kinds: seq<Kind>)
    ensures |kinds| == |lines|
    ensures forall i :: 0 <= i < |lines| ==> kinds[i] == if lines[i].Removed? then OldSide else NewSide
  {
    if lines == [] then [] else [if lines[0].Removed? then OldSide else NewSide] + LineKinds(lines[1..])
  }

  function HunkKinds(h: Hunk): seq<Kind> {
    [Header(StartAt(h.newSide.start))] + LineKinds(h.lines)
  }

  function PatchKinds(hunks: seq<Hunk>): (kinds: seq<Kind>)
    ensures |kinds| == |Patch(hunks)|
  {
    if hunks == [] then []
    else
      var last := |hunks| - 1;
      PatchKinds(hunks[..last]) + HunkKinds(hunks[last])
  }

  ghost predicate StartsFit(hunks: seq<Hunk>) {
    forall i :: 0 <= i < |hunks| ==> hunks[i].newSide.start < U32
  }

  lemma RenderedKind(l: HunkLine)
    ensures KindOf(RenderLine(l)) == if l.Removed? then OldSide else NewSide
  {
  }

  lemma KindsAppend(a: seq<string>, b: seq<string>)
    ensures Kinds(a + b) == Kinds(a) + Kinds(b)
  {
  }

  lemma RenderedKinds(h: Hunk)
    requires h.newSide.start < U32
    ensures Kinds([RenderHeader(h)] + RenderLines(h.lines)) == HunkKinds(h)
  {
    HeaderHasItsStart(h);
    KindsAppend([RenderHeader(h)], RenderLines(h.lines));
    forall i | 0 <= i < |h.lines| ensures Kinds(RenderLines(h.lines))[i] == LineKinds(h.lines)[i] {
      RenderedKind(h.lines[i]);
    }
    assert Kinds(RenderLines(h.lines)) == LineKinds(h.lines);
  }

  /** The scan reads back the kind of every line rendered. */
  lemma {:induction false} PatchReadsBack(hunks: seq<Hunk>)
    requires StartsFit(hunks)
    ensures Kinds(Patch(hunks)) == PatchKinds(hunks)
    decreases |hunks|
  {
    if hunks != [] {
      var last := |hunks| - 1;
      PatchReadsBack(hunks[..last]);
      RenderedKinds(hunks[last]);
      KindsAppend(Patch(hunks[..last]), [RenderHeader(hunks[last])] + RenderLines(hunks[last].lines));
    }
  }

  // ---- What the scan takes a rendered line for ----

  lemma {:induction false} CounterOfPrefix(c: Option<nat>, a: seq<Kind>, b: seq<Kind>, k: nat)
    requires k <= |a|
    ensures CounterFrom(c, a + b, k) == CounterFrom(c, a, k)
    decreases k
  {
    if k > 0 {
      assert (a + b)[0] == a[0] && (a + b)[1..] == a[1..] + b;
      CounterOfPrefix(Next(c, a[0]), a[1..], b, k - 1);
    }
  }

  lemma {:induction false} CounterOfSuffix(c: Option<nat>, a: seq<Kind>, b: seq<Kind>, k: nat)
    requires k <= |b|
    ensures CounterFrom(c, a + b, |a| + k) == CounterFrom(CounterFrom(c, a, |a|), b, k)
    decreases |a|
  {
    if a == [] {
      assert a + b == b;
    } else {
      assert (a + b)[0] == a[0] && (a + b)[1..] == a[1..] + b;
      CounterOfSuffix(Next(c, a[0]), a[1..], b, k);
    }
  }

  /** A line of this kind, with the counter after it: the scan counts `markers` too many. */
  predicate Counted(kind: Kind, counter: Option<nat>, place: Place, markers: nat) {
    match place
    case Number(n) => kind.NewSide? && counter == Some(n + markers)
    case NotThere => !kind.NewSide?
    case OfMarker => true
  }

  lemma TailOfLines(lines: seq<HunkLine>, next: nat, above: nat, i: nat)
    requires 0 < i < |lines|
    ensures LineKinds(lines)[1..] == LineKinds(lines[1..]) && LineKinds(lines)[i] == LineKinds(lines[1..])[i - 1]
    ensures var next' := if lines[0].Context? || lines[0].Added? then next + 1 else next;
            Places(lines, next)[i] == Places(lines[1..], next')[i - 1]
    ensures var above' := if lines[0].Marker? then above + 1 else above;
            MarkersAbove(lines, above)[i] == MarkersAbove(lines[1..], above')[i - 1]
  {
  }

  lemma {:induction false} HunkIsCounted(lines: seq<HunkLine>, next: nat, above: nat, i: nat)
    requires i < |lines| && next >= 1
    ensures var counter := CounterFrom(Some(next - 1 + above), LineKinds(lines), i + 1);
      counter.Some? && Counted(LineKinds(lines)[i], counter, Places(lines, next)[i], MarkersAbove(lines, above)[i])
    decreases |lines|
  {
    var l, kinds, c := lines[0], LineKinds(lines), Some(next - 1 + above);
    if i == 0 {
      assert CounterFrom(Next(c, kinds[0]), kinds[1..], 0) == Next(c, kinds[0]);
    } else {
      var next' := if l.Context? || l.Added? then next + 1 else next;
      var above' := if l.Marker? then above + 1 else above;
      TailOfLines(lines, next, above, i);
      assert Next(c, kinds[0]) == Some(next' - 1 + above');
      HunkIsCounted(lines[1..], next', above', i - 1);
    }
  }

  lemma HeaderSetsTheCounter(h: Hunk, c: Option<nat>, k: nat)
    requires c.Some? && k <= |h.lines|
    ensures CounterFrom(c, HunkKinds(h), k + 1) == CounterFrom(Some(First(h) - 1), LineKinds(h.lines), k)
  {
    assert HunkKinds(h)[1..] == LineKinds(h.lines);
  }

  lemma HunkAfter(before: seq<Kind>, h: Hunk, k: nat)
    requires Counter(before, |before|).Some? && k <= |h.lines|
    ensures Counter(before + HunkKinds(h), |before| + (k + 1)) == CounterFrom(Some(First(h) - 1), LineKinds(h.lines), k)
  {
    CounterOfSuffix(Some(0), before, HunkKinds(h), k + 1);
    HeaderSetsTheCounter(h, Counter(before, |before|), k);
  }

  lemma HunkAfterIsSome(before: seq<Kind>, h: Hunk)
    requires Counter(before, |before|).Some?
    ensures Counter(before + HunkKinds(h), |before + HunkKinds(h)|).Some?
  {
    HunkAfter(before, h, |h.lines|);
    if h.lines != [] {
      HunkIsCounted(h.lines, First(h), 0, |h.lines| - 1);
    }
  }

  lemma {:induction false} CounterIsSome(hunks: seq<Hunk>)
    ensures Counter(PatchKinds(hunks), |PatchKinds(hunks)|).Some?
    decreases |hunks|
  {
    if hunks != [] {
      var last := |hunks| - 1;
      CounterIsSome(hunks[..last]);
      HunkAfterIsSome(PatchKinds(hunks[..last]), hunks[last]);
    }
  }

  lemma LineAfterIsCounted(before: seq<Kind>, h: Hunk, i: nat)
    requires Counter(before, |before|).Some? && i < |h.lines|
    ensures var kinds := before + HunkKinds(h);
      var counter := Counter(kinds, |before| + i + 2);
      Counted(kinds[|before| + 1 + i], counter, Places(h.lines, First(h))[i], MarkersAbove(h.lines, 0)[i])
  {
    HunkAfter(before, h, i + 1);
    HunkIsCounted(h.lines, First(h), 0, i);
    assert (before + HunkKinds(h))[|before| + 1 + i] == HunkKinds(h)[1 + i] == LineKinds(h.lines)[i];
  }

  ghost predicate CountedAt(kinds: seq<Kind>, places: seq<Place>, markers: seq<nat>, p: nat)
    requires |kinds| == |places| == |markers| && 1 <= p <= |kinds|
  {
    Counted(kinds[p - 1], Counter(kinds, p), places[p - 1], markers[p - 1])
  }

  lemma AppendedIsCounted(kinds: seq<Kind>, places: seq<Place>, markers: seq<nat>, h: Hunk, p: nat)
    requires |kinds| == |places| == |markers| && Counter(kinds, |kinds|).Some?
    requires 1 <= p <= |kinds| + 1 + |h.lines|
    requires p <= |kinds| ==> CountedAt(kinds, places, markers, p)
    ensures CountedAt(kinds + HunkKinds(h), places + HunkPlaces(h), markers + HunkMarkers(h), p)
  {
    if p <= |kinds| {
      CounterOfPrefix(Some(0), kinds, HunkKinds(h), p);
    } else if p > |kinds| + 1 {
      var i := p - |kinds| - 2;
      LineAfterIsCounted(kinds, h, i);
      assert (places + HunkPlaces(h))[p - 1] == HunkPlaces(h)[1 + i] == Places(h.lines, First(h))[i];
      assert (markers + HunkMarkers(h))[p - 1] == HunkMarkers(h)[1 + i] == MarkersAbove(h.lines, 0)[i];
    }
  }

  /** Every line of every patch: a line on the new side is counted as its number plus the markers above
      it in its hunk, so rightly if and only if there are none. */
  lemma {:induction false} PatchIsCounted(hunks: seq<Hunk>, p: nat)
    requires 1 <= p <= |Patch(hunks)|
    ensures CountedAt(PatchKinds(hunks), PatchPlaces(hunks), Markers(hunks), p)
    decreases |hunks|
  {
    var last := |hunks| - 1;
    if p <= |Patch(hunks[..last])| {
      PatchIsCounted(hunks[..last], p);
    }
    CounterIsSome(hunks[..last]);
    AppendedIsCounted(PatchKinds(hunks[..last]), PatchPlaces(hunks[..last]), Markers(hunks[..last]), hunks[last], p);
  }

  // ---- The position found ----

  ghost predicate WithoutMarkers(hunks: seq<Hunk>) {
    forall i, j :: 0 <= i < |hunks| && 0 <= j < |hunks[i].lines| ==> !hunks[i].lines[j].Marker?
  }

  function NewLines(lines: seq<HunkLine>): nat {
    if lines == [] then 0 else (if lines[0].Context? || lines[0].Added? then 1 else 0) + NewLines(lines[1..])
  }

  /** The hunks' new sides come in order and do not overlap. */
  ghost predicate Disjoint(hunks: seq<Hunk>) {
    forall i, j :: 0 <= i < j < |hunks| ==> First(hunks[i]) + NewLines(hunks[i].lines) <= First(hunks[j])
  }

  lemma {:induction false} NoMarkersAbove(lines: seq<HunkLine>, next: nat, above: nat, i: nat)
    requires i < |lines| && forall j :: 0 <= j < |lines| ==> !lines[j].Marker?
    ensures MarkersAbove(lines, above)[i] == above && !Places(lines, next)[i].OfMarker?
    decreases |lines|
  {
    if i > 0 {
      NoMarkersAbove(lines[1..], if lines[0].Removed? then next else next + 1, above, i - 1);
    }
  }

  lemma NoMarkersInHunk(h: Hunk, i: nat)
    requires i < |HunkPlaces(h)| && forall j :: 0 <= j < |h.lines| ==> !h.lines[j].Marker?
    ensures i < |HunkMarkers(h)| && HunkMarkers(h)[i] == 0 && !HunkPlaces(h)[i].OfMarker?
  {
    if i > 0 {
      NoMarkersAbove(h.lines, First(h), 0, i - 1);
    }
  }

  lemma {:induction false} NoMarkers(hunks: seq<Hunk>, p: nat)
    requires WithoutMarkers(hunks) && 1 <= p <= |Patch(hunks)|
    ensures Markers(hunks)[p - 1] == 0 && !PatchPlaces(hunks)[p - 1].OfMarker?
    decreases |hunks|
  {
    var last := |hunks| - 1;
    var before := PatchPlaces(hunks[..last]);
    if p <= |before| {
      NoMarkers(hunks[..last], p);
    } else {
      NoMarkersInHunk(hunks[last], p - 1 - |before|);
    }
  }

  lemma {:induction false} PlacesIncrease(lines: seq<HunkLine>, next: nat, i: nat)
    requires i < |lines| && Places(lines, next)[i].Number?
    ensures next <= Places(lines, next)[i].n < next + NewLines(lines)
    ensures forall j :: 0 <= j < i && Places(lines, next)[j].Number? ==>
      Places(lines, next)[j].n < Places(lines, next)[i].n
    decreases |lines|
  {
    if i > 0 {
      PlacesIncrease(lines[1..], if lines[0].Context? || lines[0].Added? then next + 1 else next, i - 1);
    }
  }

  lemma {:induction false} PlacesAreBelow(hunks: seq<Hunk>, bound: nat, i: nat)
    requires i < |PatchPlaces(hunks)| && PatchPlaces(hunks)[i].Number?
    requires forall k :: 0 <= k < |hunks| ==> First(hunks[k]) + NewLines(hunks[k].lines) <= bound
    ensures PatchPlaces(hunks)[i].n < bound
    decreases |hunks|
  {
    var last := |hunks| - 1;
    var before := PatchPlaces(hunks[..last]);
    if i < |before| {
      PlacesAreBelow(hunks[..last], bound, i);
    } else {
      PlacesIncrease(hunks[last].lines, First(hunks[last]), i - |before| - 1);
    }
  }

  lemma {:induction false} PatchPlacesIncrease(hunks: seq<Hunk>, i: nat, j: nat)
    requires Disjoint(hunks) && i < j < |PatchPlaces(hunks)|
    requires PatchPlaces(hunks)[i].Number? && PatchPlaces(hunks)[j].Number?
    ensures PatchPlaces(hunks)[i].n < PatchPlaces(hunks)[j].n
    decreases |hunks|
  {
    var last := |hunks| - 1;
    var before := PatchPlaces(hunks[..last]);
    if j < |before| {
      PatchPlacesIncrease(hunks[..last], i, j);
    } else {
      PlacesIncrease(hunks[last].lines, First(hunks[last]), j - |before| - 1);
      if i < |before| {
        PlacesAreBelow(hunks[..last], First(hunks[last]), i);
      } else {
        assert Places(hunks[last].lines, First(hunks[last]))[i - |before| - 1].Number?;
      }
    }
  }

  /** The `p`th line of the patch is line `target` of the new file. */
  predicate Holds(hunks: seq<Hunk>, p: nat, target: nat) {
    1 <= p <= |Patch(hunks)| && PatchPlaces(hunks)[p - 1] == Number(target)
  }

  lemma HoldsOnce(hunks: seq<Hunk>, p: nat, q: nat, target: nat)
    requires Disjoint(hunks) && Holds(hunks, p, target) && Holds(hunks, q, target)
    ensures p == q
  {
    if p < q {
      PatchPlacesIncrease(hunks, p - 1, q - 1);
    } else if q < p {
      PatchPlacesIncrease(hunks, q - 1, p - 1);
    }
  }

  lemma TakesWhatIsCounted(kinds: seq<Kind>, places: seq<Place>, markers: seq<nat>, p: nat, target: nat)
    requires |kinds| == |places| == |markers| && 1 <= p <= |kinds|
    requires CountedAt(kinds, places, markers, p)
    ensures places[p - 1] == Number(target) ==> (Takes(kinds, p, target) <==> markers[p - 1] == 0)
    ensures !places[p - 1].OfMarker? && Takes(kinds, p, target) && markers[p - 1] == 0 ==>
      places[p - 1] == Number(target)
  {
  }

  /** For every patch at all: the scan takes a line of the new file for that line if and only if no
      marker is above it in its hunk. */
  lemma RightIffNoMarkerAbove(hunks: seq<Hunk>, p: nat, target: nat)
    requires StartsFit(hunks) && Holds(hunks, p, target)
    ensures Takes(Kinds(Patch(hunks)), p, target) <==> Markers(hunks)[p - 1] == 0
  {
    PatchReadsBack(hunks);
    PatchIsCounted(hunks, p);
    TakesWhatIsCounted(PatchKinds(hunks), PatchPlaces(hunks), Markers(hunks), p, target);
  }

  lemma TakesWhatHolds(hunks: seq<Hunk>, p: nat, target: nat)
    requires WithoutMarkers(hunks)
    ensures Takes(PatchKinds(hunks), p, target) <==> Holds(hunks, p, target)
  {
    if 1 <= p <= |Patch(hunks)| {
      PatchIsCounted(hunks, p);
      NoMarkers(hunks, p);
      TakesWhatIsCounted(PatchKinds(hunks), PatchPlaces(hunks), Markers(hunks), p, target);
    }
  }

  /** For every patch without markers whose new sides do not overlap: a position is found exactly when
      the line is on the new side of some hunk, and it is the one place that holds it. */
  lemma FindsTheOnePlace(hunks: seq<Hunk>, target: nat, found: Option<nat>)
    requires StartsFit(hunks) && WithoutMarkers(hunks) && Disjoint(hunks)
    requires FirstTaken(Kinds(Patch(hunks)), target, found)
    ensures forall p: nat :: Holds(hunks, p, target) <==> found == Some(p)
  {
    PatchReadsBack(hunks);
    forall p: nat ensures Holds(hunks, p, target) <==> found == Some(p) {
      TakesWhatHolds(hunks, p, target);
      if found.Some? {
        TakesWhatHolds(hunks, found.value, target);
        if Holds(hunks, p, target) {
          HoldsOnce(hunks, p, found.value, target);
        }
      }
    }
  }

  // ---- Patches with markers ----

  /** The hunk's lines with each marker a line of both sides, as the scan takes it. */
  function MarkersAsLines(lines: seq<HunkLine>): (shown: seq<HunkLine>)
    ensures |shown| == |lines| && forall i :: 0 <= i < |lines| ==> !shown[i].Marker?
    ensures LineKinds(shown) == LineKinds(lines)
    ensures (forall i :: 0 <= i < |lines| ==> !lines[i].Marker?) ==> shown == lines
  {
    if lines == [] then []
    else [if lines[0].Marker? then Context("") else lines[0]] + MarkersAsLines(lines[1..])
  }

  /** The hunk as the scan sees it. */
  function Seen(h: Hunk): Hunk {
    h.(lines := MarkersAsLines(h.lines))
  }

  function SeenPatch(hunks: seq<Hunk>): (seen: seq<Hunk>)
    ensures |seen| == |hunks|
  {
    seq(|hunks|, i requires 0 <= i < |hunks| => Seen(hunks[i]))
  }

  lemma {:induction false} SeenPatchKinds(hunks: seq<Hunk>)
    ensures PatchKinds(SeenPatch(hunks)) == PatchKinds(hunks)
    decreases |hunks|
  {
    if hunks != [] {
      var last := |hunks| - 1;
      SeenPatchKinds(hunks[..last]);
      assert SeenPatch(hunks)[..last] == SeenPatch(hunks[..last]);
      assert HunkKinds(Seen(hunks[last])) == HunkKinds(hunks[last]);
    }
  }

  /** Of every patch, whatever its hunks: what is found is the first place that holds the line when
      markers are counted as lines, and nothing if there is none. */
  lemma FindsWhatIsSeen(hunks: seq<Hunk>, target: nat, found: Option<nat>)
    requires StartsFit(hunks) && FirstTaken(Kinds(Patch(hunks)), target, found)
    ensures found.Some? ==> Holds(SeenPatch(hunks), found.value, target)
    ensures forall p: nat :: Holds(SeenPatch(hunks), p, target) ==> found.Some? && found.value <= p
  {
    PatchReadsBack(hunks);
    SeenPatchKinds(hunks);
    forall p: nat ensures Takes(Kinds(Patch(hunks)), p, target) <==> Holds(SeenPatch(hunks), p, target) {
      TakesWhatHolds(SeenPatch(hunks), p, target);
    }
  }

  /** What the source of a patch sees to: a marker is only in the last hunk, where its file ends. */
  ghost predicate MarkersAtTheEnd(hunks: seq<Hunk>) {
    forall i, j :: 0 <= i < |hunks| - 1 && 0 <= j < |hunks[i].lines| ==> !hunks[i].lines[j].Marker?
  }

  lemma MarkersAtTheEndOverlapNothing(hunks: seq<Hunk>)
    requires Disjoint(hunks) && MarkersAtTheEnd(hunks)
    ensures Disjoint(SeenPatch(hunks))
  {
    forall i, j | 0 <= i < j < |hunks|
      ensures First(SeenPatch(hunks)[i]) + NewLines(SeenPatch(hunks)[i].lines) <= First(SeenPatch(hunks)[j])
    {
      assert MarkersAsLines(hunks[i].lines) == hunks[i].lines;
      assert First(hunks[i]) + NewLines(hunks[i].lines) <= First(hunks[j]);
    }
  }

  /** For every patch whose new sides do not overlap, markers counted: the position found for a line
      is its own if and only if no marker is above it in its hunk. */
  lemma FoundIffNoMarkerAbove(hunks: seq<Hunk>, p: nat, target: nat, found: Option<nat>)
    requires StartsFit(hunks) && Disjoint(SeenPatch(hunks)) && Holds(hunks, p, target)
    requires FirstTaken(Kinds(Patch(hunks)), target, found)
    ensures found == Some(p) <==> Markers(hunks)[p - 1] == 0
  {
    FindsWhatIsSeen(hunks, target, found);
    RightIffNoMarkerAbove(hunks, p, target);
    PatchReadsBack(hunks);
    SeenPatchKinds(hunks);
    TakesWhatHolds(SeenPatch(hunks), p, target);
    if Markers(hunks)[p - 1] == 0 {
      HoldsOnce(SeenPatch(hunks), p, found.value, target);
    }
  }

  /** And so for every patch with markers only in its last hunk. */
  lemma FoundIffNoMarkerAboveAtTheEnd(hunks: seq<Hunk>, p: nat, target: nat, found: Option<nat>)
    requires StartsFit(hunks) && Disjoint(hunks) && MarkersAtTheEnd(hunks) && Holds(hunks, p, target)
    requires FirstTaken(Kinds(Patch(hunks)), target, found)
    ensures found == Some(p) <==> Markers(hunks)[p - 1] == 0
  {
    MarkersAtTheEndOverlapNothing(hunks);
    FoundIffNoMarkerAbove(hunks, p, target, found);
  }

  /** A marker above shifts what follows it: of a file whose only line is replaced, neither version
      ending in a newline, line 1 of the new file is at 4, and the marker at 3 is taken for it. */
  lemma MarkerIsTakenForTheLine()
    ensures var hunks := [Hunk(Range(1, None), Range(1, None), "", [Removed("a"), Marker, Added("b"), Marker])];
      StartsFit(hunks) && Disjoint(hunks) && Holds(hunks, 4, 1) && FirstTaken(Kinds(Patch(hunks)), 1, Some(3))
  {
    var lines := [Removed("a"), Marker, Added("b"), Marker];
    var hunks := [Hunk(Range(1, None), Range(1, None), "", lines)];
    MarkerLines(lines);
    PatchReadsBack(hunks);
    assert hunks[..0] == [];
    assert PatchKinds(hunks) == [Header(StartAt(1)), OldSide, NewSide, NewSide, NewSide];
    MarkerIsTaken(PatchKinds(hunks));
  }

  lemma MarkerIsTaken(kinds: seq<Kind>)
    requires kinds == [Header(StartAt(1)), OldSide, NewSide, NewSide, NewSide]
    ensures FirstTaken(kinds, 1, Some(3))
  {
    CounterNext(Some(0), kinds, 0);
    CounterNext(Some(0), kinds, 1);
    CounterNext(Some(0), kinds, 2);
  }

  lemma MarkerLines(lines: seq<HunkLine>)
    requires lines == [Removed("a"), Marker, Added("b"), Marker]
    ensures Places(lines, 1) == [NotThere, OfMarker, Number(1), OfMarker]
    ensures LineKinds(lines) == [OldSide, NewSide, NewSide, NewSide]
  {
    assert lines[1..] == [Marker, Added("b"), Marker] && lines[1..][1..] == [Added("b"), Marker];
    assert [Added("b"), Marker][1..] == [Marker] && [Marker][1..] == [];
    assert Places([Marker], 2) == [OfMarker];
    assert Places([Added("b"), Marker], 1) == [Number(1), OfMarker];
  }

  /** Why markers are counted for the overlap: one in an earlier hunk, where no file ends, makes the
      line after it pass for the first of the next hunk. */
  lemma MarkerInAnEarlierHunk()
    ensures var first := Hunk(Range(1, None), Range(1, None), "", [Marker, Added("a")]);
            var hunks := [first, Hunk(Range(1, None), Range(2, None), "", [Added("b")])];
      && StartsFit(hunks) && Disjoint(hunks)
      && Holds(hunks, 5, 2) && Markers(hunks)[4] == 0 && FirstTaken(Kinds(Patch(hunks)), 2, Some(3))
  {
    var first := Hunk(Range(1, None), Range(1, None), "", [Marker, Added("a")]);
    var second := Hunk(Range(1, None), Range(2, None), "", [Added("b")]);
    var hunks := [first, second];
    EarlierMarkerPatch(first, second);
    PatchReadsBack(hunks);
    MarkerIsTakenAgain(PatchKinds(hunks));
  }

  lemma EarlierMarkerPatch(first: Hunk, second: Hunk)
    requires first.newSide.start == 1 && first.lines == [Marker, Added("a")]
    requires second.newSide.start == 2 && second.lines == [Added("b")]
    ensures PatchKinds([first, second]) == [Header(StartAt(1)), NewSide, NewSide, Header(StartAt(2)), NewSide]
    ensures PatchPlaces([first, second]) == [NotThere, OfMarker, Number(1), NotThere, Number(2)]
    ensures Markers([first, second]) == [0, 0, 1, 0, 0] && Disjoint([first, second])
  {
    EarlierMarkerLines(first, second);
    OneHunkMore([], first);
    assert [] + [first] == [first];
    assert PatchKinds([first]) == HunkKinds(first) && PatchPlaces([first]) == HunkPlaces(first);
    assert Markers([first]) == HunkMarkers(first);
    OneHunkMore([first], second);
    assert [first] + [second] == [first, second];
  }

  lemma OneHunkMore(hunks: seq<Hunk>, h: Hunk)
    ensures PatchKinds(hunks + [h]) == PatchKinds(hunks) + HunkKinds(h)
    ensures PatchPlaces(hunks + [h]) == PatchPlaces(hunks) + HunkPlaces(h)
    ensures Markers(hunks + [h]) == Markers(hunks) + HunkMarkers(h)
  {
    assert (hunks + [h])[..|hunks|] == hunks;
  }

  lemma EarlierMarkerLines(first: Hunk, second: Hunk)
    requires first.newSide.start == 1 && first.lines == [Marker, Added("a")]
    requires second.newSide.start == 2 && second.lines == [Added("b")]
    ensures HunkKinds(first) == [Header(StartAt(1)), NewSide, NewSide]
    ensures HunkKinds(second) == [Header(StartAt(2)), NewSide]
    ensures HunkPlaces(first) == [NotThere, OfMarker, Number(1)] && HunkPlaces(second) == [NotThere, Number(2)]
    ensures HunkMarkers(first) == [0, 0, 1] && HunkMarkers(second) == [0, 0]
    ensures NewLines(first.lines) == 1
  {
    assert first.lines[1..] == [Added("a")] && [Added("a")][1..] == [] && second.lines[1..] == [];
    assert Places([Added("a")], 1) == [Number(1)] && MarkersAbove([Added("a")], 1) == [1];
    assert NewLines([Added("a")]) == 1;
  }

  lemma MarkerIsTakenAgain(kinds: seq<Kind>)
    requires kinds == [Header(StartAt(1)), NewSide, NewSide, Header(StartAt(2)), NewSide]
    ensures FirstTaken(kinds, 2, Some(3))
  {
    CounterNext(Some(0), kinds, 0);
    CounterNext(Some(0), kinds, 1);
    CounterNext(Some(0), kinds, 2);
  }
}
