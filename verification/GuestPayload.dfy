/**
Splitting a guest event line into its JSON object and a kernel log suffix. The
bracket and string structure of JSON text is a tree with a rendering; the scanner
finds exactly the end of the first such tree, and the suffix recogniser accepts
exactly the kernel's timestamped form.
*/
module GuestPayload {
  import opened Words

  const MAX_DEPTH: nat := 16

  // ---------------------------------------------------------------- structure of the text

  /** A character of a string literal: itself, or one behind a backslash. */
  datatype Quoted = Raw(c: char) | Escaped(c: char)

  /** Brackets, strings and everything else. */
  datatype Item = Plain(c: char) | Text(body: seq<Quoted>) | Group(curly: bool, items: seq<Item>)

  predicate Structural(c: char) {
    c == '"' || c == '{' || c == '}' || c == '[' || c == ']'
  }

  predicate ValidBody(body: seq<Quoted>) {
    forall i :: 0 <= i < |body| && body[i].Raw? ==> body[i].c != '"' && body[i].c != '\\'
  }

  predicate ValidItem(x: Item) {
    match x
    case Plain(c) => !Structural(c)
    case Text(body) => ValidBody(body)
    case Group(_, items) => forall i :: 0 <= i < |items| ==> ValidItem(items[i])
  }

  function RenderBody(body: seq<Quoted>): string {
    if body == [] then ""
    else
      RenderBody(body[..|body| - 1]) +
      match body[|body| - 1] case Raw(c) => [c] case Escaped(c) => ['\\', c]
  }

  function Open(curly: bool): char { if curly then '{' else '[' }
  function Close(curly: bool): char { if curly then '}' else ']' }

  function Render(x: Item): string
    decreases x, 1, 0
  {
    match x
    case Plain(c) => [c]
    case Text(body) => ['"'] + RenderBody(body) + ['"']
    case Group(curly, items) => [Open(curly)] + RenderPrefix(x, |items|) + [Close(curly)]
  }

  /** The first `n` items of a group. */
  function RenderPrefix(x: Item, n: nat): string
    requires x.Group? && n <= |x.items|
    decreases x, 0, n
  {
    if n == 0 then "" else RenderPrefix(x, n - 1) + Render(x.items[n - 1])
  }

  /** How deep the brackets nest. */
  function Depth(x: Item): nat
    decreases x, 1, 0
  {
    if x.Group? then 1 + DepthPrefix(x, |x.items|) else 0
  }

  function DepthPrefix(x: Item, n: nat): nat
    requires x.Group? && n <= |x.items|
    decreases x, 0, n
  {
    if n == 0 then 0
    else
      var d, e := DepthPrefix(x, n - 1), Depth(x.items[n - 1]);
      if d < e then e else d
  }

  // ---------------------------------------------------------------- the scanner

  datatype Scan = Scan(stack: seq<char>, quoted: bool, escaped: bool)

  const START: Scan := Scan([], false, false)

  datatype Fed = Going(next: Scan) | Rejected | Closed

  function Feed(s: Scan, c: char): Fed {
    if s.quoted then
      if s.escaped then Going(s.(escaped := false))
      else if c == '\\' then Going(s.(escaped := true))
      else if c == '"' then Going(s.(quoted := false))
      else Going(s)
    else if c == '"' then Going(s.(quoted := true))
    else if c == '{' || c == '[' then
      if |s.stack| == MAX_DEPTH then Rejected else Going(s.(stack := s.stack + [Close(c == '{')]))
    else if c != '}' && c != ']' then Going(s)
    else if s.stack == [] || s.stack[|s.stack| - 1] != c then Rejected
    else if |s.stack| == 1 then Closed
    else Going(s.(stack := s.stack[..|s.stack| - 1]))
  }

  /** Where the scan from position `i` closes the root, if it does. */
  function ScanFrom(s: Scan, text: string, i: nat): (end: Option<nat>)
    requires i <= |text|
    ensures end.Some? ==> i < end.value <= |text|
    decreases |text| - i
  {
    if i == |text| then None
    else
      match Feed(s, text[i])
      case Going(t) => ScanFrom(t, text, i + 1)
      case Rejected => None
      case Closed => Some(i + 1)
  }

  /** `part` occurs in `text` at `i`. */
  predicate Occurs(part: string, text: string, i: nat) {
    i + |part| <= |text| && text[i..i + |part|] == part
  }

  lemma OccursParts(a: string, b: string, text: string, i: nat)
    requires Occurs(a + b, text, i)
    ensures Occurs(a, text, i) && Occurs(b, text, i + |a|)
  {
    var whole := text[i..i + |a + b|];
    assert text[i..i + |a|] == whole[..|a|] == a;
    assert text[i + |a|..i + |a| + |b|] == whole[|a|..] == b;
  }

  lemma OccursJoin(a: string, b: string, text: string, i: nat)
    requires Occurs(a, text, i) && Occurs(b, text, i + |a|)
    ensures Occurs(a + b, text, i)
  {
    assert text[i..i + |a| + |b|] == text[i..i + |a|] + text[i + |a|..i + |a| + |b|];
  }

  // ---------------------------------------------------------------- completeness

  /** A string literal's body leaves the scanner inside the string. */
  lemma {:induction false} ScanBody(s: Scan, body: seq<Quoted>, text: string, i: nat)
    requires s.quoted && !s.escaped && ValidBody(body) && Occurs(RenderBody(body), text, i)
    ensures ScanFrom(s, text, i) == ScanFrom(s, text, i + |RenderBody(body)|)
  {
    if body == [] {
    } else {
      var front, last := body[..|body| - 1], body[|body| - 1];
      var tail := match last case Raw(c) => [c] case Escaped(c) => ['\\', c];
      OccursParts(RenderBody(front), tail, text, i);
      ScanBody(s, front, text, i);
      var at := i + |RenderBody(front)|;
      match last
      case Raw(c) =>
        assert text[at] == text[at..at + 1][0] == c;
        assert Feed(s, c) == Going(s);
      case Escaped(c) =>
        assert text[at] == text[at..at + 2][0] == '\\' && text[at + 1] == text[at..at + 2][1];
        assert Feed(s, '\\') == Going(s.(escaped := true));
        assert Feed(s.(escaped := true), c) == Going(s);
        assert ScanFrom(s.(escaped := true), text, at + 1) == ScanFrom(s, text, at + 2);
    }
  }

  /** Inside a group every item is passed over; one that nests too deep is rejected. */
  lemma {:induction false} ScanItem(s: Scan, x: Item, text: string, i: nat)
    requires !s.quoted && !s.escaped && 0 < |s.stack| <= MAX_DEPTH && ValidItem(x) && Occurs(Render(x), text, i)
    ensures ScanFrom(s, text, i) ==
      if |s.stack| + Depth(x) <= MAX_DEPTH then ScanFrom(s, text, i + |Render(x)|) else None
    decreases x, 1, 0
  {
    match x
    case Plain(c) =>
      assert text[i] == text[i..i + 1][0] == c;
    case Text(body) => ScanText(s, body, text, i);
    case Group(curly, items) =>
      GroupParts(x, text, i);
      hide Render, RenderPrefix;
      if |s.stack| < MAX_DEPTH {
        var t := s.(stack := s.stack + [Close(curly)]);
        ScanItems(t, x, |items|, text, i + 1);
        OpenClose(s, curly);
        hide Feed;
        assert ScanFrom(s, text, i) == ScanFrom(t, text, i + 1);
      }
  }

  lemma OpenClose(s: Scan, curly: bool)
    requires !s.quoted && 0 < |s.stack| < MAX_DEPTH
    ensures var t := s.(stack := s.stack + [Close(curly)]);
      Feed(s, Open(curly)) == Going(t) && Feed(t, Close(curly)) == Going(s)
  {
    var t := s.(stack := s.stack + [Close(curly)]);
    assert t.stack[..|t.stack| - 1] == s.stack;
  }

  lemma ScanText(s: Scan, body: seq<Quoted>, text: string, i: nat)
    requires !s.quoted && !s.escaped && ValidBody(body) && Occurs(Render(Text(body)), text, i)
    ensures ScanFrom(s, text, i) == ScanFrom(s, text, i + |Render(Text(body))|)
  {
    hide RenderBody;
    var t := s.(quoted := true);
    OccursParts(['"'] + RenderBody(body), ['"'], text, i);
    OccursParts(['"'], RenderBody(body), text, i);
    assert text[i] == text[i..i + 1][0] == '"';
    assert Feed(s, '"') == Going(t);
    ScanBody(t, body, text, i + 1);
    var at := i + 1 + |RenderBody(body)|;
    assert text[at] == text[at..at + 1][0] == '"';
    assert Feed(t, '"') == Going(s);
    assert ScanFrom(t, text, at) == ScanFrom(s, text, at + 1);
  }

  /** Where a rendered group's brackets and items lie. */
  lemma GroupParts(x: Item, text: string, i: nat)
    requires x.Group? && Occurs(Render(x), text, i)
    ensures var inner := RenderPrefix(x, |x.items|);
      && |Render(x)| == |inner| + 2 && i + |inner| + 2 <= |text| && Occurs(inner, text, i + 1)
      && text[i] == Open(x.curly) && text[i + 1 + |inner|] == Close(x.curly)
  {
    var inner := RenderPrefix(x, |x.items|);
    hide RenderPrefix;
    OccursParts([Open(x.curly)] + inner, [Close(x.curly)], text, i);
    OccursParts([Open(x.curly)], inner, text, i);
    assert text[i] == text[i..i + 1][0];
    var at := i + 1 + |inner|;
    assert text[at] == text[at..at + 1][0];
  }

  lemma {:induction false} ScanItems(s: Scan, x: Item, n: nat, text: string, i: nat)
    requires x.Group? && n <= |x.items| && ValidItem(x)
    requires !s.quoted && !s.escaped && 0 < |s.stack| <= MAX_DEPTH && Occurs(RenderPrefix(x, n), text, i)
    ensures ScanFrom(s, text, i) ==
      if |s.stack| + DepthPrefix(x, n) <= MAX_DEPTH then ScanFrom(s, text, i + |RenderPrefix(x, n)|) else None
    decreases x, 0, n
  {
    hide ScanFrom, Feed;
    if n > 0 {
      var last := x.items[n - 1];
      OccursParts(RenderPrefix(x, n - 1), Render(last), text, i);
      ScanItems(s, x, n - 1, text, i);
      ScanItem(s, last, text, i + |RenderPrefix(x, n - 1)|);
    }
  }

  /** The scanner closes exactly at the end of the first object, unless it nests too deep. */
  lemma ScanObject(x: Item, text: string, i: nat)
    requires x.Group? && x.curly && ValidItem(x) && Occurs(Render(x), text, i)
    ensures ScanFrom(START, text, i) == if Depth(x) <= MAX_DEPTH then Some(i + |Render(x)|) else None
  {
    GroupParts(x, text, i);
    var s := Scan(['}'], false, false);
    assert [] + ['}'] == ['}'];
    assert Feed(START, '{') == Going(s);
    ScanItems(s, x, |x.items|, text, i + 1);
    assert Feed(s, '}') == Closed;
  }

  /** No object is a proper prefix of another: the boundary is unique. */
  lemma UniqueBoundary(x: Item, y: Item, text: string, i: nat)
    requires x.Group? && x.curly && ValidItem(x) && Occurs(Render(x), text, i)
    requires y.Group? && y.curly && ValidItem(y) && Occurs(Render(y), text, i)
    requires Depth(x) <= MAX_DEPTH && Depth(y) <= MAX_DEPTH
    ensures |Render(x)| == |Render(y)|
  {
    ScanObject(x, text, i);
    ScanObject(y, text, i);
  }

  // ---------------------------------------------------------------- soundness

  /** A group that is still open: its bracket and the items read so far. */
  datatype Level = Level(curly: bool, items: seq<Item>)

  function LevelText(l: Level): string {
    [Open(l.curly)] + RenderPrefix(Group(l.curly, l.items), |l.items|)
  }

  function LevelsText(levels: seq<Level>): string {
    if levels == [] then "" else LevelsText(levels[..|levels| - 1]) + LevelText(levels[|levels| - 1])
  }

  /** What has been read of an open string, backslash included. */
  function StringText(body: Option<seq<Quoted>>, escaped: bool): string {
    match body
    case None => ""
    case Some(b) => ['"'] + RenderBody(b) + if escaped then ['\\'] else []
  }

  ghost predicate Fits(l: Level, k: nat) {
    forall j :: 0 <= j < |l.items| ==> ValidItem(l.items[j]) && k + 1 + Depth(l.items[j]) <= MAX_DEPTH
  }

  /** The scanner's state stands for this partly read object. */
  ghost predicate Reads(s: Scan, levels: seq<Level>, body: Option<seq<Quoted>>) {
    && |s.stack| == |levels| <= MAX_DEPTH && levels != [] && levels[0].curly
    && (forall k :: 0 <= k < |levels| ==> s.stack[k] == Close(levels[k].curly) && Fits(levels[k], k))
    && (s.quoted <==> body.Some?) && (s.escaped ==> s.quoted) && (body.Some? ==> ValidBody(body.value))
  }

  lemma {:induction false} PrefixSame(c: bool, items: seq<Item>, x: Item, n: nat)
    requires n <= |items|
    ensures RenderPrefix(Group(c, items + [x]), n) == RenderPrefix(Group(c, items), n)
    ensures DepthPrefix(Group(c, items + [x]), n) == DepthPrefix(Group(c, items), n)
  {
    hide Render, Depth;
    if n > 0 { PrefixSame(c, items, x, n - 1); }
  }

  function Push(l: Level, x: Item): Level { Level(l.curly, l.items + [x]) }

  lemma PushText(l: Level, x: Item)
    ensures LevelText(Push(l, x)) == LevelText(l) + Render(x)
  {
    PrefixSame(l.curly, l.items, x, |l.items|);
  }

  lemma LevelsAppend(levels: seq<Level>, l: Level)
    ensures LevelsText(levels + [l]) == LevelsText(levels) + LevelText(l)
  {
    assert (levels + [l])[..|levels|] == levels;
  }

  /** The last open group gains an item. */
  lemma {:induction false} PushLast(levels: seq<Level>, x: Item)
    requires levels != []
    ensures LevelsText(levels[..|levels| - 1] + [Push(levels[|levels| - 1], x)]) == LevelsText(levels) + Render(x)
  {
    hide LevelText, Render, LevelsText;
    var front, l := levels[..|levels| - 1], levels[|levels| - 1];
    assert levels == front + [l];
    LevelsAppend(front, l);
    LevelsAppend(front, Push(l, x));
    PushText(l, x);
  }

  lemma {:induction false} DepthBound(x: Item, n: nat, d: nat)
    requires x.Group? && n <= |x.items| && forall j :: 0 <= j < n ==> Depth(x.items[j]) <= d
    ensures DepthPrefix(x, n) <= d
  {
    hide Depth;
    if n > 0 { DepthBound(x, n - 1, d); }
  }

  /** A closed level is an item that fits where the level was. */
  lemma ClosedLevel(l: Level, k: nat)
    requires Fits(l, k) && k < MAX_DEPTH
    ensures var x := Group(l.curly, l.items);
      ValidItem(x) && k + Depth(x) <= MAX_DEPTH && Render(x) == LevelText(l) + [Close(l.curly)]
  {
    DepthBound(Group(l.curly, l.items), |l.items|, MAX_DEPTH - k - 1);
  }

  function TextSoFar(s: Scan, levels: seq<Level>, body: Option<seq<Quoted>>): string {
    LevelsText(levels) + StringText(body, s.escaped)
  }

  /** One more character inside a string. */
  lemma StepQuoted(s: Scan, levels: seq<Level>, body: seq<Quoted>, c: char)
    returns (t: Scan, newLevels: seq<Level>, newBody: Option<seq<Quoted>>)
    requires Reads(s, levels, Some(body))
    ensures Feed(s, c) == Going(t) && Reads(t, newLevels, newBody)
    ensures TextSoFar(t, newLevels, newBody) == TextSoFar(s, levels, Some(body)) + [c]
  {
    hide LevelsText, LevelText, RenderPrefix, DepthPrefix, Fits;
    t := Feed(s, c).next;
    newLevels, newBody := levels, Some(body);
    if s.escaped {
      newBody := Some(body + [Escaped(c)]);
      assert (body + [Escaped(c)])[..|body|] == body;
      assert ['"'] + RenderBody(body) + ['\\'] + [c] == ['"'] + (RenderBody(body) + ['\\', c]);
    } else if c == '\\' {
    } else if c == '"' {
      newLevels := CloseString(levels, body);
      newBody := None;
    } else {
      newBody := Some(body + [Raw(c)]);
      assert (body + [Raw(c)])[..|body|] == body;
      assert ['"'] + RenderBody(body) + [c] == ['"'] + (RenderBody(body) + [c]);
    }
  }

  /** A closing quote turns the string into an item of the last open group. */
  lemma CloseString(levels: seq<Level>, body: seq<Quoted>) returns (more: seq<Level>)
    requires levels != [] && |levels| <= MAX_DEPTH && ValidBody(body)
    requires forall k :: 0 <= k < |levels| ==> Fits(levels[k], k)
    ensures |more| == |levels| && forall k :: 0 <= k < |levels| ==> more[k].curly == levels[k].curly && Fits(more[k], k)
    ensures LevelsText(more) == LevelsText(levels) + (['"'] + RenderBody(body) + ['"'])
  {
    var last := |levels| - 1;
    PushLast(levels, Text(body));
    assert ValidItem(Text(body)) && Depth(Text(body)) == 0;
    more := levels[..last] + [Push(levels[last], Text(body))];
  }

  /** One more character outside strings that does not close the root. */
  lemma StepPlain(s: Scan, levels: seq<Level>, c: char)
    returns (t: Scan, newLevels: seq<Level>, newBody: Option<seq<Quoted>>)
    requires Reads(s, levels, None) && Feed(s, c).Going?
    ensures Feed(s, c) == Going(t) && Reads(t, newLevels, newBody)
    ensures TextSoFar(t, newLevels, newBody) == TextSoFar(s, levels, None) + [c]
  {
    hide LevelsText, LevelText, RenderPrefix, DepthPrefix, Fits;
    t := Feed(s, c).next;
    newLevels, newBody := levels, None;
    if c == '"' {
      newBody := Some([]);
    } else if c == '{' || c == '[' {
      newLevels := OpenLevel(levels, c);
    } else if c == '}' || c == ']' {
      newLevels := CloseLevel(levels);
    } else {
      newLevels := AddPlain(levels, c);
    }
  }

  lemma OpenLevel(levels: seq<Level>, c: char) returns (more: seq<Level>)
    requires (c == '{' || c == '[') && forall k :: 0 <= k < |levels| ==> Fits(levels[k], k)
    ensures more == levels + [Level(c == '{', [])] && forall k :: 0 <= k < |more| ==> Fits(more[k], k)
    ensures LevelsText(more) == LevelsText(levels) + [c]
  {
    more := levels + [Level(c == '{', [])];
    LevelsAppend(levels, Level(c == '{', []));
    assert LevelText(Level(c == '{', [])) == [c];
    NothingInside(c == '{', |levels|);
  }

  lemma NothingInside(curly: bool, k: nat)
    ensures Fits(Level(curly, []), k)
  {
  }

  lemma AddPlain(levels: seq<Level>, c: char) returns (more: seq<Level>)
    requires levels != [] && |levels| <= MAX_DEPTH && !Structural(c)
    requires forall k :: 0 <= k < |levels| ==> Fits(levels[k], k)
    ensures |more| == |levels| && forall k :: 0 <= k < |levels| ==> more[k].curly == levels[k].curly && Fits(more[k], k)
    ensures LevelsText(more) == LevelsText(levels) + [c]
  {
    var last := |levels| - 1;
    PushLast(levels, Plain(c));
    more := levels[..last] + [Push(levels[last], Plain(c))];
  }

  /** A closing bracket turns the last open group into an item of the one around it. */
  lemma CloseLevel(levels: seq<Level>) returns (more: seq<Level>)
    requires 1 < |levels| <= MAX_DEPTH && forall k :: 0 <= k < |levels| ==> Fits(levels[k], k)
    ensures |more| == |levels| - 1
    ensures forall k :: 0 <= k < |more| ==> more[k].curly == levels[k].curly && Fits(more[k], k)
    ensures LevelsText(more) == LevelsText(levels) + [Close(levels[|levels| - 1].curly)]
  {
    var last := |levels| - 1;
    var l, around := levels[last], levels[..last];
    ClosedLevel(l, last);
    var x := Group(l.curly, l.items);
    PushLast(around, x);
    more := around[..last - 1] + [Push(around[last - 1], x)];
    assert LevelsText(levels) == LevelsText(around) + LevelText(l);
    hide LevelsText, LevelText, Render;
    assert LevelsText(around) + (LevelText(l) + [Close(l.curly)]) ==
      LevelsText(around) + LevelText(l) + [Close(l.curly)];
  }

  /** Whatever the scanner closes is a whole object of bounded depth. */
  lemma {:induction false} ClosesObject(s: Scan, levels: seq<Level>, body: Option<seq<Quoted>>, text: string, i: nat,
                                        at: nat, end: nat)
    returns (x: Item)
    requires Reads(s, levels, body) && Occurs(TextSoFar(s, levels, body), text, i)
    requires at == i + |TextSoFar(s, levels, body)| && ScanFrom(s, text, at) == Some(end)
    ensures x.Group? && x.curly && ValidItem(x) && Depth(x) <= MAX_DEPTH
    ensures Occurs(Render(x), text, i) && end == i + |Render(x)|
    decreases |text| - at
  {
    hide LevelsText, LevelText, RenderBody, Feed, Fits;
    var c, sofar := text[at], TextSoFar(s, levels, body);
    assert Occurs([c], text, at);
    if Feed(s, c).Going? {
      var t: Scan, more: seq<Level>, b: Option<seq<Quoted>>;
      if body.Some? {
        t, more, b := StepQuoted(s, levels, body.value, c);
      } else {
        t, more, b := StepPlain(s, levels, c);
      }
      OccursJoin(sofar, [c], text, i);
      x := ClosesObject(t, more, b, text, i, at + 1, end);
    } else {
      x := RootCloses(s, levels, body, c);
      OccursJoin(sofar, [c], text, i);
    }
  }

  lemma RootCloses(s: Scan, levels: seq<Level>, body: Option<seq<Quoted>>, c: char) returns (x: Item)
    requires Reads(s, levels, body) && Feed(s, c) == Closed
    ensures x.Group? && x.curly && ValidItem(x) && Depth(x) <= MAX_DEPTH
    ensures Render(x) == TextSoFar(s, levels, body) + [c]
  {
    ClosedLevel(levels[0], 0);
    x := Group(levels[0].curly, levels[0].items);
    hide LevelText, Render, Fits;
    assert levels[..0] == [];
    assert LevelsText(levels) == LevelText(levels[0]);
  }

  /** Both directions: the scan ends at `end` exactly when an object of bounded depth ends there. */
  lemma ScanMeaning(text: string, i: nat, end: nat)
    requires i < |text| && text[i] == '{'
    ensures ScanFrom(START, text, i) == Some(end) <==>
      exists x: Item :: x.Group? && x.curly && ValidItem(x) && Depth(x) <= MAX_DEPTH && Occurs(Render(x), text, i) &&
        end == i + |Render(x)|
  {
    if ScanFrom(START, text, i) == Some(end) {
      var s, levels := Scan(['}'], false, false), [Level(true, [])];
      assert [] + ['}'] == ['}'];
      assert Feed(START, '{') == Going(s);
      NothingInside(true, 0);
      assert levels[..0] == [];
      assert TextSoFar(s, levels, None) == ['{'];
      var x := ClosesObject(s, levels, None, text, i, i + 1, end);
    }
    forall x: Item | x.Group? && x.curly && ValidItem(x) && Depth(x) <= MAX_DEPTH && Occurs(Render(x), text, i) &&
      end == i + |Render(x)|
      ensures ScanFrom(START, text, i) == Some(end)
    {
      ScanObject(x, text, i);
    }
  }
}
