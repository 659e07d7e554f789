/** The kernel log suffix and the split of a guest line, in the source's own loops. */
module GuestLines {
  import opened Words
  import opened GuestPayload

  const MARKER: string := "C2T "

  predicate Digit(c: char) { '0' <= c <= '9' }
  predicate Printable(c: char) { ' ' <= c <= '~' }
  predicate Blank(c: char) { c == ' ' || c == '\t' }

  predicate MarkerAt(t: string, o: nat) {
    o + 4 <= |t| && t[o..o + 4] == MARKER
  }

  predicate Marked(t: string) {
    exists o :: 0 <= o < |t| && MarkerAt(t, o)
  }

  /**
   * The kernel's form: a bracketed timestamp with padding, seconds and six
   * decimals, one space, then printable text that is not all spaces.
   */
  predicate Timestamped(t: string, p: nat, q: nat) {
    && 1 <= p < q && q + 9 <= |t| && t[0] == '['
    && (forall i :: 1 <= i < p ==> t[i] == ' ') && (forall i :: p <= i < q ==> Digit(t[i])) && t[q] == '.'
    && (forall i :: q < i <= q + 6 ==> Digit(t[i])) && t[q + 7] == ']' && t[q + 8] == ' '
    && (forall i :: q + 9 <= i < |t| ==> Printable(t[i])) && exists i :: q + 9 <= i < |t| && t[i] != ' '
  }

  ghost predicate Printk(t: string) {
    !Marked(t) && exists p, q :: Timestamped(t, p, q)
  }

  method ContainsMarker(t: string) returns (found: bool)
    ensures found <==> Marked(t)
  {
    var o := 0;
    while o + 4 <= |t|
      invariant forall k :: 0 <= k < o ==> !MarkerAt(t, k)
    {
      if t[o..o + 4] == MARKER {
        assert MarkerAt(t, o);
        return true;
      }
      o := o + 1;
    }
    return false;
  }

  /** The padding and the seconds can be read in only one way. */
  lemma OneReading(t: string, p: nat, q: nat, a: nat, b: nat)
    requires Timestamped(t, p, q) && 1 <= a <= b <= |t|
    requires (forall i :: 1 <= i < a ==> t[i] == ' ') && (a < |t| ==> t[a] != ' ')
    requires (forall i :: a <= i < b ==> Digit(t[i])) && (b < |t| ==> !Digit(t[b]))
    ensures a == p && b == q
  {
    assert Digit(t[p]);
    assert !Digit(t[q]) && t[q] != ' ';
  }

  /** `is_kernel_printk_suffix`: exactly the kernel's form without the event marker. */
  method IsPrintk(t: string) returns (ok: bool)
    ensures ok <==> Printk(t)
  {
    var marked := ContainsMarker(t);
    if |t| < 12 || t[0] != '[' || marked { return false; }
    var position := 1;
    while position < |t| && t[position] == ' '
      invariant 1 <= position <= |t| && forall i :: 1 <= i < position ==> t[i] == ' '
    {
      position := position + 1;
    }
    var seconds := position;
    while position < |t| && Digit(t[position])
      invariant seconds <= position <= |t| && forall i :: seconds <= i < position ==> Digit(t[i])
    {
      position := position + 1;
    }
    ghost var dot := position;
    forall p, q | Timestamped(t, p, q) ensures p == seconds && q == dot { OneReading(t, p, q, seconds, dot); }
    if position == seconds || position >= |t| || t[position] != '.' { return false; }
    position := position + 1;
    var digit := 0;
    while digit < 6
      invariant digit <= 6 && position == dot + 1 + digit <= |t| && forall i :: dot < i < position ==> Digit(t[i])
    {
      if position >= |t| || !Digit(t[position]) { return false; }
      position := position + 1;
      digit := digit + 1;
    }
    if position + 2 > |t| || t[position] != ']' || t[position + 1] != ' ' { return false; }
    position := position + 2;
    ok := false;
    while position < |t|
      invariant dot + 9 <= position <= |t| && forall i :: dot + 9 <= i < position ==> Printable(t[i])
      invariant ok <==> exists i :: dot + 9 <= i < position && t[i] != ' '
    {
      if !Printable(t[position]) { return false; }
      ok := ok || t[position] != ' ';
      position := position + 1;
    }
    assert ok ==> Timestamped(t, seconds, dot);
  }

  datatype Suffix = NoSuffix | KernelLog | Invalid

  datatype Split = Split(json: nat, suffixAt: nat, suffixSize: nat, suffix: Suffix)

  function Whole(text: string): Split { Split(|text|, |text|, 0, NoSuffix) }

  /** The first position from `i` on that is not blank. */
  function SkipBlanks(text: string, i: nat): (j: nat)
    requires i <= |text|
    ensures i <= j <= |text| && (forall k :: i <= k < j ==> Blank(text[k])) && (j < |text| ==> !Blank(text[j]))
    decreases |text| - i
  {
    if i < |text| && Blank(text[i]) then SkipBlanks(text, i + 1) else i
  }

  /** What the split means: the first object's end, if something other than blanks follows it. */
  ghost predicate Splits(text: string, s: Split) {
    var begin := SkipBlanks(text, 0);
    if begin == |text| || text[begin] != '{' then s == Whole(text)
    else
      match ScanFrom(START, text, begin)
      case None => s == Whole(text)
      case Some(end) =>
        var at := SkipBlanks(text, end);
        if at == |text| then s == Whole(text)
        else s == Split(end, at, |text| - at, if Printk(text[at..]) then KernelLog else Invalid)
  }

  /** `split_guest_payload`: one pass with a bounded stack of expected closing brackets. */
  method SplitPayload(text: string) returns (s: Split)
    ensures Splits(text, s)
  {
    hide Printk, ScanFrom;
    var begin := 0;
    while begin < |text| && Blank(text[begin])
      invariant begin <= |text| && SkipBlanks(text, 0) == SkipBlanks(text, begin)
    {
      begin := begin + 1;
    }
    if begin == |text| || text[begin] != '{' { return Whole(text); }
    var closing := new char[MAX_DEPTH](_ => ' ');
    var depth := 0;
    var quoted, escaped := false, false;
    var position := begin;
    while position < |text|
      invariant begin <= position <= |text| && depth <= MAX_DEPTH
      invariant ScanFrom(START, text, begin) == ScanFrom(Scan(closing[..depth], quoted, escaped), text, position)
    {
      var byte := text[position];
      ghost var now := Scan(closing[..depth], quoted, escaped);
      ScanNext(now, text, position);
      if quoted {
        if escaped { escaped := false; }
        else if byte == '\\' { escaped := true; }
        else if byte == '"' { quoted := false; }
        assert Feed(now, byte) == Going(Scan(closing[..depth], quoted, escaped));
      } else if byte == '"' {
        quoted := true;
      } else if byte == '{' || byte == '[' {
        if depth == MAX_DEPTH { return Whole(text); }
        closing[depth] := if byte == '{' then '}' else ']';
        depth := depth + 1;
        assert closing[..depth] == now.stack + [Close(byte == '{')];
      } else if byte == '}' || byte == ']' {
        if depth == 0 || closing[depth - 1] != byte { return Whole(text); }
        depth := depth - 1;
        assert closing[..depth] == now.stack[..|now.stack| - 1];
        if depth == 0 {
          s := Finish(text, position + 1);
          return;
        }
      }
      position := position + 1;
    }
    ScanOver(Scan(closing[..depth], quoted, escaped), text);
    return Whole(text);
  }

  lemma ScanNext(s: Scan, text: string, i: nat)
    requires i < |text|
    ensures ScanFrom(s, text, i) ==
      match Feed(s, text[i])
      case Going(t) => ScanFrom(t, text, i + 1)
      case Rejected => None
      case Closed => Some(i + 1)
  {
    hide Feed;
  }

  lemma ScanOver(s: Scan, text: string)
    ensures ScanFrom(s, text, |text|) == None
  {
  }

  /** After the root closed: blanks, then the suffix and its class. */
  method Finish(text: string, end: nat) returns (s: Split)
    requires end <= |text|
    ensures var at := SkipBlanks(text, end);
      s == if at == |text| then Whole(text)
           else Split(end, at, |text| - at, if Printk(text[at..]) then KernelLog else Invalid)
  {
    hide Printk;
    var at := end;
    while at < |text| && Blank(text[at])
      invariant end <= at <= |text| && SkipBlanks(text, end) == SkipBlanks(text, at)
    {
      at := at + 1;
    }
    if at == |text| { return Whole(text); }
    var printk := IsPrintk(text[at..]);
    return Split(end, at, |text| - at, if printk then KernelLog else Invalid);
  }

  // ---------------------------------------------------------------- the promises

  lemma BlanksEnd(text: string, i: nat, j: nat)
    requires i <= j <= |text| && (forall k :: i <= k < j ==> Blank(text[k])) && (j < |text| ==> !Blank(text[j]))
    ensures SkipBlanks(text, i) == j
    decreases j - i
  {
    if i < j { BlanksEnd(text, i + 1, j); }
  }

  /** An object of bounded depth followed by a kernel log line is recovered exactly. */
  lemma RecoversObject(x: Item, suffix: string, s: Split)
    requires x.Group? && x.curly && ValidItem(x) && Depth(x) <= MAX_DEPTH && Printk(suffix)
    requires Splits(Render(x) + suffix, s)
    ensures s == Split(|Render(x)|, |Render(x)|, |suffix|, KernelLog)
  {
    var text := Render(x) + suffix;
    var p, q :| Timestamped(suffix, p, q);
    assert Occurs(Render(x), text, 0) by { assert text[0..0 + |Render(x)|] == Render(x); }
    GroupParts(x, text, 0);
    assert text[|Render(x)|] == suffix[0] == '[';
    hide Render, Printk;
    BlanksEnd(text, 0, 0);
    BlanksEnd(text, |Render(x)|, |Render(x)|);
    ScanObject(x, text, 0);
    assert text[|Render(x)|..] == suffix;
  }

  /**
   * Any split before the end is at the end of a whole object of bounded depth -
   * the first, and therefore the only one - and an accepted suffix carries no
   * event marker.
   */
  lemma SplitsAtObject(text: string, s: Split)
    requires Splits(text, s) && s.suffix != NoSuffix
    ensures var begin := SkipBlanks(text, 0);
      && begin < s.json <= s.suffixAt < |text| && s.suffixAt + s.suffixSize == |text|
      && (exists x: Item ::
            x.Group? && x.curly && ValidItem(x) && Depth(x) <= MAX_DEPTH && Occurs(Render(x), text, begin)
            && s.json == begin + |Render(x)|)
      && (forall k :: s.json <= k < s.suffixAt ==> Blank(text[k]))
      && (forall y: Item ::
            y.Group? && y.curly && ValidItem(y) && Depth(y) <= MAX_DEPTH && Occurs(Render(y), text, begin)
            ==> s.json == begin + |Render(y)|)
      && (s.suffix == KernelLog ==> !Marked(text[s.suffixAt..]))
  {
    hide Timestamped, Render, Depth, ValidItem, Occurs;
    var begin := SkipBlanks(text, 0);
    ScanMeaning(text, begin, s.json);
    forall y: Item | y.Group? && y.curly && ValidItem(y) && Depth(y) <= MAX_DEPTH && Occurs(Render(y), text, begin)
      ensures s.json == begin + |Render(y)|
    {
      ScanObject(y, text, begin);
    }
  }

  /** Over-deep objects are never cut at a convenient earlier brace: the line stays whole. */
  lemma DeepStaysWhole(x: Item, text: string, s: Split)
    requires Splits(text, s) && x.Group? && x.curly && ValidItem(x) && Depth(x) > MAX_DEPTH
    requires Occurs(Render(x), text, SkipBlanks(text, 0))
    ensures s == Whole(text)
  {
    var begin := SkipBlanks(text, 0);
    GroupParts(x, text, begin);
    hide Render, Depth, ValidItem, Printk;
    ScanObject(x, text, begin);
  }
}
