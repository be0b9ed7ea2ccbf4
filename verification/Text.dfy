/** Python's `str.strip`, `str.split` on one character, `int(str)` and decimal printing. */
module Text {
  import opened Wire

  /** Every character `str.isspace` accepts. */
  predicate IsSpace(c: char) {
    var n := c as int;
    || 0x09 <= n <= 0x0D || 0x1C <= n <= 0x20 || n == 0x85 || n == 0xA0 || n == 0x1680
    || 0x2000 <= n <= 0x200A || n == 0x2028 || n == 0x2029 || n == 0x202F || n == 0x205F || n == 0x3000
  }

  predicate IsDigit(c: char) { '0' <= c <= '9' }

  predicate Blank(s: string) { forall i :: 0 <= i < |s| ==> IsSpace(s[i]) }

  /** Nothing to strip at either end. */
  predicate Tight(s: string) { s != "" ==> !IsSpace(s[0]) && !IsSpace(s[|s| - 1]) }

  function StripLeft(s: string): (r: string)
    ensures |r| <= |s|
  {
    if s != "" && IsSpace(s[0]) then StripLeft(s[1..]) else s
  }

  function StripRight(s: string): (r: string)
    ensures |r| <= |s|
  {
    if s != "" && IsSpace(s[|s| - 1]) then StripRight(s[..|s| - 1]) else s
  }

  function Strip(s: string): string { StripRight(StripLeft(s)) }

  lemma {:induction false} StripLeftBlank(pad: string, s: string)
    requires Blank(pad) && (s != "" ==> !IsSpace(s[0]))
    ensures StripLeft(pad + s) == s
  {
    if pad == "" {
      assert pad + s == s;
    } else {
      assert (pad + s)[1..] == pad[1..] + s;
      StripLeftBlank(pad[1..], s);
    }
  }

  lemma {:induction false} StripRightBlank(s: string, pad: string)
    requires Blank(pad) && (s != "" ==> !IsSpace(s[|s| - 1]))
    ensures StripRight(s + pad) == s
  {
    if pad == "" {
      assert s + pad == s;
    } else {
      assert (s + pad)[..|s + pad| - 1] == s + pad[..|pad| - 1];
      StripRightBlank(s, pad[..|pad| - 1]);
    }
  }

  /** Blanks around a text are stripped, and nothing else. */
  lemma StripPadded(before: string, s: string, after: string)
    requires Blank(before) && Blank(after) && Tight(s)
    ensures Strip(before + s + after) == s
  {
    if s == "" {
      assert Blank(before + after) && before + s + after == (before + after) + "";
      StripLeftBlank(before + after, "");
    } else {
      assert before + s + after == before + (s + after);
      StripLeftBlank(before, s + after);
      StripRightBlank(s, after);
    }
  }

  /** The position of the first `c` in `s`, or its length. */
  function Find(s: string, c: char): (n: nat)
    ensures n <= |s| && c !in s[..n] && (n < |s| ==> s[n] == c)
  {
    if s == "" || s[0] == c then 0 else 1 + Find(s[1..], c)
  }

  /** `s.split(c)` */
  function Split(s: string, c: char): (parts: seq<string>)
    ensures parts != []
    decreases |s|
  {
    var n := Find(s, c);
    if n == |s| then [s] else [s[..n]] + Split(s[n + 1..], c)
  }

  function Join(parts: seq<string>, c: char): string
    requires parts != []
  {
    if |parts| == 1 then parts[0] else parts[0] + [c] + Join(parts[1..], c)
  }

  lemma {:induction false} FindAt(left: string, c: char, right: string)
    requires c !in left && (right != "" ==> right[0] == c)
    ensures Find(left + right, c) == |left|
  {
    if left == "" {
      assert left + right == right;
    } else {
      assert (left + right)[1..] == left[1..] + right;
      FindAt(left[1..], c, right);
    }
  }

  lemma {:induction false} SplitJoin(parts: seq<string>, c: char)
    requires parts != [] && forall p :: p in parts ==> c !in p
    ensures Split(Join(parts, c), c) == parts
  {
    var s := Join(parts, c);
    if |parts| > 1 {
      var rest := Join(parts[1..], c);
      assert s == parts[0] + ([c] + rest);
      FindAt(parts[0], c, [c] + rest);
      assert s[..|parts[0]|] == parts[0] && s[|parts[0]| + 1..] == rest;
      SplitJoin(parts[1..], c);
    } else {
      assert s == s + "";
      FindAt(s, c, "");
    }
  }

  function DigitOf(c: char): nat
    requires IsDigit(c)
  {
    c as int - '0' as int
  }

  function DigitChar(d: nat): (c: char)
    requires d < 10
    ensures IsDigit(c) && DigitOf(c) == d
  {
    (d + '0' as int) as char
  }

  /** Decimal digits, single underscores allowed between them. */
  function Digits(s: string): Option<nat> {
    if s == "" || !IsDigit(s[|s| - 1]) then None
    else if |s| == 1 then Some(DigitOf(s[0]))
    else
      var rest := if s[|s| - 2] == '_' then Digits(s[..|s| - 2]) else Digits(s[..|s| - 1]);
      if rest.None? then None else Some(10 * rest.value + DigitOf(s[|s| - 1]))
  }

  /** `int(s)`; `None` is its `ValueError`. */
  function ParseInt(s: string): Option<int> {
    var t := Strip(s);
    if t != "" && (t[0] == '-' || t[0] == '+') then
      var n := Digits(t[1..]);
      if n.None? then None else Some((if t[0] == '-' then -1 else 1) * n.value)
    else Digits(t)
  }

  /** `str(n)` for a natural number. */
  function Print(n: nat): (s: string)
    ensures s != "" && forall i :: 0 <= i < |s| ==> IsDigit(s[i])
  {
    if n < 10 then [DigitChar(n)] else Print(n / 10) + [DigitChar(n % 10)]
  }

  lemma {:induction false} DigitsPrint(n: nat)
    ensures Digits(Print(n)) == Some(n)
  {
    if n >= 10 {
      DigitsPrint(n / 10);
      var s := Print(n);
      assert s[..|s| - 1] == Print(n / 10);
      assert IsDigit(s[|s| - 2]);
    }
  }

  /** Reading a number back gives that number, whatever blanks surround it. */
  lemma ParseIntPrint(before: string, n: nat, after: string)
    requires Blank(before) && Blank(after)
    ensures ParseInt(before + Print(n) + after) == Some(n)
  {
    var s := Print(n);
    assert IsDigit(s[0]) && IsDigit(s[|s| - 1]);
    StripPadded(before, s, after);
    DigitsPrint(n);
  }

  /** Numbers are decimal. */
  lemma Decimal(n: nat)
    ensures Print(n) == (if n < 10 then "" else Print(n / 10)) + ["0123456789"[n % 10]]
  {}

  lemma ReadsFortyEight()
    ensures ParseInt("48") == Some(48)
  {
    Decimal(4);
    Decimal(48);
    assert "" + "48" + "" == "48";
    ParseIntPrint("", 48, "");
  }
}
