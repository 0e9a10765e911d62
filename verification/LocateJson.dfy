/** `locate_json` of src/checker/multi_review/parse_util.rs: the first balanced JSON object in a model's
    output, braces inside strings ignored. The scan is over bytes, and the bytes it looks for are ASCII,
    so that it is stated over characters here. */
module LocateJson {
  import opened Options

  /** `text[from..to]`, as the slice that the scan returns. */
  datatype Slice = Slice(from: nat, to: nat)

  datatype Scan = Scan(depth: int, inString: bool, escaped: bool)

  const START := Scan(0, false, false)

  function Step(s: Scan, c: char): Scan {
    if s.inString then
      if s.escaped then s.(escaped := false)
      else if c == '\\' then s.(escaped := true)
      else if c == '"' then s.(inString := false)
      else s
    else if c == '"' then s.(inString := true)
    else if c == '{' then s.(depth := s.depth + 1)
    else if c == '}' then s.(depth := s.depth - 1)
    else s
  }

  function After(s: Scan, text: string): Scan
    decreases |text|
  {
    if text == "" then s else After(Step(s, text[0]), text[1..])
  }

  lemma {:induction false} AfterAppend(s: Scan, a: string, b: string)
    ensures After(s, a + b) == After(After(s, a), b)
    decreases |a|
  {
    if a == "" {
      assert a + b == b;
    } else {
      assert (a + b)[0] == a[0] && (a + b)[1..] == a[1..] + b;
      AfterAppend(Step(s, a[0]), a[1..], b);
    }
  }

  function At(text: string, i: nat): Scan
    requires i <= |text|
  {
    After(START, text[..i])
  }

  lemma AtNext(text: string, i: nat)
    requires i < |text|
    ensures At(text, i + 1) == Step(At(text, i), text[i])
  {
    assert text[..i + 1] == text[..i] + [text[i]];
    AfterAppend(START, text[..i], [text[i]]);
    assert [text[i]][1..] == "";
  }

  /** A brace outside every string and every object. */
  predicate Opens(text: string, i: nat)
    requires i < |text|
  {
    text[i] == '{' && At(text, i).depth == 0 && !At(text, i).inString
  }

  ghost predicate Inside(text: string, from: nat, to: nat)
    requires to <= |text|
  {
    forall j :: from < j < to ==> At(text, j).depth > 0
  }

  /** What the scan is for: the first object that opens outside everything, up to where it closes. */
  ghost predicate Located(text: string, found: Option<Slice>) {
    match found
    case Some(slice) =>
      && slice.from < slice.to <= |text| && Opens(text, slice.from)
      && (forall i :: 0 <= i < slice.from ==> !Opens(text, i))
      && Inside(text, slice.from, slice.to) && At(text, slice.to).depth == 0
    case None =>
      (forall i :: 0 <= i < |text| && Opens(text, i) ==> Inside(text, i, |text|) && At(text, |text|).depth > 0)
  }

  method Locate(text: string) returns (found: Option<Slice>)
    ensures Located(text, found)
  {
    var start: Option<nat> := None;
    var depth, inString, escaped := 0, false, false;
    for i := 0 to |text|
      invariant Scan(depth, inString, escaped) == At(text, i)
      invariant match start
                case None => depth <= 0 && forall k :: 0 <= k < i ==> !Opens(text, k)
                case Some(s) => s < i && depth > 0 && forall k :: 0 <= k < i ==> (Opens(text, k) <==> k == s)
      invariant start.Some? ==> Inside(text, start.value, i)
    {
      AtNext(text, i);
      var b := text[i];
      if inString {
        if escaped {
          escaped := false;
        } else if b == '\\' {
          escaped := true;
        } else if b == '"' {
          inString := false;
        }
      } else if b == '"' {
        inString := true;
      } else if b == '{' {
        if depth == 0 {
          start := Some(i);
        }
        depth := depth + 1;
      } else if b == '}' {
        depth := depth - 1;
        if depth == 0 && start.Some? {
          return Some(Slice(start.value, i + 1));
        }
      }
    }
    return None;
  }

  lemma LocatedOnce(text: string, a: Option<Slice>, b: Option<Slice>)
    requires Located(text, a) && Located(text, b)
    ensures a == b
  {
    if a.Some? && b.Some? {
      var x, y := a.value, b.value;
      var atX, atY := At(text, x.to), At(text, y.to);
      assert x.from == y.from && atX.depth == atY.depth == 0;
    }
  }

  // ---- JSON text (sections 2 to 7 of RFC 8259) ----

  /** A character of a string as it is written. An escaped `\u` is followed by four plain digits. */
  datatype Character = Plain(c: char) | Escape(c: char)

  /** `Atom` is a number or a literal name. The whitespace at each place is its own, and the list of
      items or members ends with what is before the closing bracket. */
  datatype Json =
    | Atom(text: string)
    | Str(characters: seq<Character>)
    | Arr(items: Items)
    | Obj(members: Members)

  datatype Items = NoItems(pad: string) | Item(before: string, value: Json, after: string, rest: Items)

  datatype Members =
    | NoMembers(pad: string)
    | Member(beforeName: string, name: seq<Character>, afterName: string,
             beforeValue: string, value: Json, afterValue: string, rest: Members)

  /** Text that opens and closes nothing. */
  predicate Bare(text: string) {
    forall i :: 0 <= i < |text| ==> text[i] != '"' && text[i] != '{' && text[i] != '}'
  }

  predicate WrittenCharacters(cs: seq<Character>) {
    forall c :: c in cs && c.Plain? ==> c.c != '"' && c.c != '\\'
  }

  predicate Written(j: Json) {
    match j
    case Atom(text) => Bare(text)
    case Str(cs) => WrittenCharacters(cs)
    case Arr(items) => WrittenItems(items)
    case Obj(members) => WrittenMembers(members)
  }

  predicate WrittenItems(items: Items) {
    match items
    case NoItems(pad) => Bare(pad)
    case Item(before, value, after, rest) => Bare(before) && Written(value) && Bare(after) && WrittenItems(rest)
  }

  predicate WrittenMembers(members: Members) {
    match members
    case NoMembers(pad) => Bare(pad)
    case Member(beforeName, name, afterName, beforeValue, value, afterValue, rest) =>
      && Bare(beforeName) && WrittenCharacters(name) && Bare(afterName)
      && Bare(beforeValue) && Written(value) && Bare(afterValue) && WrittenMembers(rest)
  }

  function PrintCharacters(cs: seq<Character>): string {
    if cs == [] then ""
    else (if cs[0].Plain? then [cs[0].c] else ['\\', cs[0].c]) + PrintCharacters(cs[1..])
  }

  function PrintString(cs: seq<Character>): string {
    "\"" + (PrintCharacters(cs) + "\"")
  }

  function Print(j: Json): string {
    match j
    case Atom(text) => text
    case Str(cs) => PrintString(cs)
    case Arr(items) => "[" + (PrintItems(items) + "]")
    case Obj(members) => "{" + (PrintMembers(members) + "}")
  }

  function PrintItems(items: Items): string {
    match items
    case NoItems(pad) => pad
    case Item(before, value, after, rest) =>
      before + (Print(value) + (after + ((if rest.Item? then "," else "") + PrintItems(rest))))
  }

  function PrintMembers(members: Members): string {
    match members
    case NoMembers(pad) => pad
    case Member(beforeName, name, afterName, beforeValue, value, afterValue, rest) =>
      beforeName + (PrintString(name) + (afterName + (":" + (beforeValue +
      (Print(value) + (afterValue + ((if rest.Member? then "," else "") + PrintMembers(rest))))))))
  }

  /** Scanning `text` from `s` never goes below `d`. */
  predicate Above(s: Scan, text: string, d: int)
    decreases |text|
  {
    s.depth >= d && (text == "" || Above(Step(s, text[0]), text[1..], d))
  }

  lemma {:induction false} AboveAppend(s: Scan, a: string, b: string, d: int)
    ensures Above(s, a + b, d) <==> Above(s, a, d) && Above(After(s, a), b, d)
    decreases |a|
  {
    if a == "" {
      assert a + b == b;
    } else {
      assert (a + b)[0] == a[0] && (a + b)[1..] == a[1..] + b;
      AboveAppend(Step(s, a[0]), a[1..], b, d);
    }
  }

  /** `text` is passed over: the scan ends as it began, and never below where it began. */
  predicate Passes(text: string, d: int) {
    After(Scan(d, false, false), text) == Scan(d, false, false) && Above(Scan(d, false, false), text, d)
  }

  lemma PassesAppend(a: string, b: string, d: int)
    requires Passes(a, d) && Passes(b, d)
    ensures Passes(a + b, d)
  {
    AfterAppend(Scan(d, false, false), a, b);
    AboveAppend(Scan(d, false, false), a, b, d);
  }

  lemma {:induction false} BarePasses(text: string, d: int)
    requires Bare(text)
    ensures Passes(text, d)
    decreases |text|
  {
    if text != "" {
      BarePasses(text[1..], d);
    }
  }

  lemma {:induction false} CharactersStayInside(cs: seq<Character>, d: int)
    requires WrittenCharacters(cs)
    ensures After(Scan(d, true, false), PrintCharacters(cs)) == Scan(d, true, false)
    ensures Above(Scan(d, true, false), PrintCharacters(cs), d)
    decreases |cs|
  {
    if cs != [] {
      var first, s := (if cs[0].Plain? then [cs[0].c] else ['\\', cs[0].c]), Scan(d, true, false);
      CharactersStayInside(cs[1..], d);
      AfterAppend(s, first, PrintCharacters(cs[1..]));
      AboveAppend(s, first, PrintCharacters(cs[1..]), d);
      if cs[0].Escape? {
        assert first[1..] == [cs[0].c] && [cs[0].c][1..] == "";
      }
    }
  }

  lemma StringPasses(cs: seq<Character>, d: int)
    requires WrittenCharacters(cs)
    ensures Passes(PrintString(cs), d)
  {
    var s, t := Scan(d, false, false), Scan(d, true, false);
    CharactersStayInside(cs, d);
    AfterAppend(t, PrintCharacters(cs), "\"");
    AboveAppend(t, PrintCharacters(cs), "\"", d);
    AfterAppend(s, "\"", PrintCharacters(cs) + "\"");
    AboveAppend(s, "\"", PrintCharacters(cs) + "\"", d);
  }

  lemma {:induction false} JsonPasses(j: Json, d: int)
    requires Written(j)
    ensures Passes(Print(j), d)
    ensures j.Obj? ==> Passes(PrintMembers(j.members), d + 1)
    decreases j
  {
    match j {
      case Atom(text) => BarePasses(text, d);
      case Str(cs) => StringPasses(cs, d);
      case Arr(items) =>
        ItemsPass(items, d);
        BarePasses("[", d);
        BarePasses("]", d);
        PassesAppend(PrintItems(items), "]", d);
        PassesAppend("[", PrintItems(items) + "]", d);
      case Obj(members) =>
        MembersPass(members, d + 1);
        var s, t, body := Scan(d, false, false), Scan(d + 1, false, false), PrintMembers(members);
        AfterAppend(t, body, "}");
        AboveAppend(t, body, "}", d);
        AboveWeaker(t, body, d + 1, d);
        AfterAppend(s, "{", body + "}");
        AboveAppend(s, "{", body + "}", d);
    }
  }

  lemma {:induction false} AboveWeaker(s: Scan, text: string, d: int, e: int)
    requires Above(s, text, d) && e <= d
    ensures Above(s, text, e)
    decreases |text|
  {
    if text != "" {
      AboveWeaker(Step(s, text[0]), text[1..], d, e);
    }
  }

  lemma {:induction false} ItemsPass(items: Items, d: int)
    requires WrittenItems(items)
    ensures Passes(PrintItems(items), d)
    decreases items
  {
    match items {
      case NoItems(pad) => BarePasses(pad, d);
      case Item(before, value, after, rest) =>
        var comma := if rest.Item? then "," else "";
        ItemsPass(rest, d);
        JsonPasses(value, d);
        BarePasses(before, d);
        BarePasses(after, d);
        BarePasses(comma, d);
        var tail := comma + PrintItems(rest);
        PassesAppend(comma, PrintItems(rest), d);
        PassesAppend(after, tail, d);
        tail := after + tail;
        PassesAppend(Print(value), tail, d);
        PassesAppend(before, Print(value) + tail, d);
    }
  }

  lemma {:induction false} MembersPass(members: Members, d: int)
    requires WrittenMembers(members)
    ensures Passes(PrintMembers(members), d)
    decreases members
  {
    match members {
      case NoMembers(pad) => BarePasses(pad, d);
      case Member(beforeName, name, afterName, beforeValue, value, afterValue, rest) =>
        var comma := if rest.Member? then "," else "";
        MembersPass(rest, d);
        JsonPasses(value, d);
        StringPasses(name, d);
        BarePasses(beforeName, d);
        BarePasses(afterName, d);
        BarePasses(beforeValue, d);
        BarePasses(afterValue, d);
        BarePasses(comma, d);
        BarePasses(":", d);
        var tail := comma + PrintMembers(rest);
        PassesAppend(comma, PrintMembers(rest), d);
        PassesAppend(afterValue, tail, d);
        tail := afterValue + tail;
        PassesAppend(Print(value), tail, d);
        tail := Print(value) + tail;
        PassesAppend(beforeValue, tail, d);
        tail := beforeValue + tail;
        PassesAppend(":", tail, d);
        tail := ":" + tail;
        PassesAppend(afterName, tail, d);
        tail := afterName + tail;
        PassesAppend(PrintString(name), tail, d);
        PassesAppend(beforeName, PrintString(name) + tail, d);
    }
  }

  // ---- What is located ----

  /** Prose that leaves the scan outside everything, without an object of its own. */
  ghost predicate Clean(prose: string) {
    && After(START, prose).depth == 0 && !After(START, prose).inString
    && forall i :: 0 <= i < |prose| ==> !Opens(prose, i)
  }

  lemma {:induction false} AboveAt(s: Scan, text: string, d: int, k: nat)
    requires Above(s, text, d) && k <= |text|
    ensures After(s, text[..k]).depth >= d
    decreases k
  {
    if k > 0 {
      assert text[..k][0] == text[0] && text[..k][1..] == text[1..][..k - 1];
      AboveAt(Step(s, text[0]), text[1..], d, k - 1);
    }
  }

  /** For every object, all that follows it, and all prose before it: what is located is exactly the
      object as it was written if and only if the prose is clean. */
  lemma LocatesTheObject(prose: string, j: Json, suffix: string)
    requires j.Obj? && Written(j)
    ensures Located(prose + Print(j) + suffix, Some(Slice(|prose|, |prose| + |Print(j)|))) <==> Clean(prose)
  {
    var text, from, to := prose + Print(j) + suffix, |prose|, |prose| + |Print(j)|;
    assert text[..from] == prose && text[from] == '{';
    forall i | 0 <= i < from ensures Opens(text, i) <==> Opens(prose, i) {
      assert text[..i] == prose[..i];
    }
    if Clean(prose) {
      ObjectIsInside(prose, j, suffix);
    }
  }

  lemma ObjectIsInside(prose: string, j: Json, suffix: string)
    requires j.Obj? && Written(j) && Clean(prose)
    ensures var text, from, to := prose + Print(j) + suffix, |prose|, |prose| + |Print(j)|;
      Inside(text, from, to) && At(text, to).depth == 0
  {
    var text, from, to := prose + Print(j) + suffix, |prose|, |prose| + |Print(j)|;
    var s, body := After(START, prose), PrintMembers(j.members);
    NeverEscaped(prose);
    JsonPasses(j, 0);
    forall k | from < k < to ensures At(text, k).depth > 0 {
      assert text[..k] == prose + ("{" + body[..k - from - 1]);
      AfterAppend(START, prose, "{" + body[..k - from - 1]);
      AfterAppend(s, "{", body[..k - from - 1]);
      AboveAt(Scan(1, false, false), body, 1, k - from - 1);
    }
    assert text[..to] == prose + Print(j);
    AfterAppend(START, prose, Print(j));
  }

  /** Only inside a string is a character escaped. */
  lemma {:induction false} NeverEscaped(text: string)
    ensures After(START, text).escaped ==> After(START, text).inString
    decreases |text|
  {
    if text != "" {
      var last := |text| - 1;
      NeverEscaped(text[..last]);
      AtNext(text, last);
      assert text[..last + 1] == text;
    }
  }

  /** Prose without quotes or braces, a Markdown fence for one, is clean. */
  lemma BareProseIsClean(prose: string)
    requires Bare(prose)
    ensures Clean(prose)
  {
    BarePasses(prose, 0);
  }

  // ---- After prose that is not clean ----

  /** A scan begun `k` lower goes on `k` lower. */
  lemma {:induction false} AfterLower(s: Scan, k: int, text: string)
    ensures After(s.(depth := s.depth - k), text) == After(s, text).(depth := After(s, text).depth - k)
    decreases |text|
  {
    if text != "" {
      AfterLower(Step(s, text[0]), k, text[1..]);
    }
  }

  /** A brace outside every string, in `k` objects that have not closed. */
  predicate OpensAtDepth(text: string, i: nat, k: int)
    requires i < |text|
  {
    text[i] == '{' && At(text, i).depth == k && !At(text, i).inString
  }

  /** Prose that closes `k` objects more than it opens, and has none of its own. */
  ghost predicate Closes(prose: string, k: nat) {
    && After(START, prose) == Scan(0 - k as int, false, false)
    && forall i :: 0 <= i < |prose| ==> !Opens(prose, i)
  }

  /** Behind such prose, what opens is what is in `k` objects. */
  lemma OpensBehind(prose: string, k: nat, rest: string, i: nat)
    requires Closes(prose, k) && i < |prose + rest|
    ensures Opens(prose + rest, i) <==> i >= |prose| && OpensAtDepth(rest, i - |prose|, k)
  {
    var text := prose + rest;
    if i < |prose| {
      assert text[..i] == prose[..i] && !Opens(prose, i);
    } else {
      var u := rest[..i - |prose|];
      assert text[..i] == prose + u;
      AfterAppend(START, prose, u);
      AfterLower(START, k, u);
    }
  }

  /** After `k` stray closing braces what is found is the first object that is nested in `k` others,
      and no other: not the outer one, unless `k` is 0. */
  lemma StrayBracesFindTheNested(prose: string, k: nat, before: string, j: Json, suffix: string)
    requires Closes(prose, k) && j.Obj? && Written(j)
    ensures var from := |prose| + |before|;
      Located(prose + before + Print(j) + suffix, Some(Slice(from, from + |Print(j)|))) <==>
        && OpensAtDepth(before + "{", |before|, k)
        && forall i :: 0 <= i < |before| ==> !OpensAtDepth(before, i, k)
  {
    LocatesTheObject(prose + before, j, suffix);
    AfterAppend(START, prose, before);
    AfterLower(START, k, before);
    assert (before + "{")[..|before|] == before;
    forall i | 0 <= i < |prose + before|
      ensures Opens(prose + before, i) <==> i >= |prose| && OpensAtDepth(before, i - |prose|, k)
    {
      OpensBehind(prose, k, before, i);
    }
    if Clean(prose + before) {
      forall i | 0 <= i < |before| ensures !OpensAtDepth(before, i, k) {
        assert !Opens(prose + before, |prose| + i);
      }
    }
  }

  /** And nothing is found if nothing that follows is nested so deep. */
  lemma StrayBracesFindNothing(prose: string, k: nat, rest: string)
    requires Closes(prose, k) && forall i :: 0 <= i < |rest| ==> !OpensAtDepth(rest, i, k)
    ensures Located(prose + rest, None)
  {
    forall i | 0 <= i < |prose + rest| ensures !Opens(prose + rest, i) {
      OpensBehind(prose, k, rest, i);
    }
  }

  /** A stray closing brace before an object in an object: the inner one is returned. */
  lemma NestedObjectIsReturned()
    ensures Located("}" + "{" + Print(Obj(NoMembers(""))) + "}", Some(Slice(2, 4)))
  {
    var inner := Obj(NoMembers(""));
    AfterOne('}');
    AfterOne('{');
    assert Print(inner) == "{" + ("" + "}") == "{}";
    assert ("{" + "{")[..1] == "{";
    StrayBracesFindTheNested("}", 1, "{", inner, "}");
  }

  lemma AfterOne(c: char)
    ensures After(START, [c]) == Step(START, c) && At([c], 0) == START
  {
    assert [c][1..] == "" && [c][..0] == "";
  }

  /** Prose that ends inside a string hides every object that follows it, as it was written. */
  lemma StrayQuoteHidesTheObject(prose: string, j: Json, suffix: string)
    requires After(START, prose).inString && j.Obj? && Written(j)
    ensures !Located(prose + Print(j) + suffix, Some(Slice(|prose|, |prose| + |Print(j)|)))
  {
    LocatesTheObject(prose, j, suffix);
  }
}
