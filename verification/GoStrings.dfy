/** The parts of Go's strings and strconv packages that the operator relies on. */
module GoStrings {

  datatype Option<+T> = None | Some(value: T)

  /** No part of a joined list may contain the separator. */
  predicate Free(s: string, c: char) {
    c !in s
  }

  predicate AllFree(parts: seq<string>, c: char) {
    forall i :: 0 <= i < |parts| ==> Free(parts[i], c)
  }

  /** strings.Split for a one-character separator: never empty, "" gives [""]. */
  function Split(s: string, c: char): (parts: seq<string>)
    ensures |parts| >= 1
  {
    if s == "" then [""]
    else
      var rest := Split(s[1..], c);
      if s[0] == c then [""] + rest else [[s[0]] + rest[0]] + rest[1..]
  }

  /** strings.Join for a one-character separator. */
  function Join(parts: seq<string>, c: char): (s: string) {
    if |parts| == 0 then ""
    else if |parts| == 1 then parts[0]
    else parts[0] + [c] + Join(parts[1..], c)
  }

  lemma {:induction false} SplitFree(s: string, c: char)
    requires Free(s, c)
    ensures Split(s, c) == [s]
  {
    if s != "" {
      SplitFree(s[1..], c);
      assert [s[0]] + s[1..] == s;
    }
  }

  /** Splitting stops at the first separator. */
  lemma {:induction false} SplitHead(h: string, t: string, c: char)
    requires Free(h, c)
    ensures Split(h + [c] + t, c) == [h] + Split(t, c)
  {
    var s := h + [c] + t;
    if h == "" {
      assert s[1..] == t;
    } else {
      assert s[1..] == h[1..] + [c] + t;
      SplitHead(h[1..], t, c);
      assert [h[0]] + h[1..] == h;
    }
  }

  /** Split undoes Join on every non-empty list of separator-free parts. */
  lemma {:induction false} SplitJoin(parts: seq<string>, c: char)
    requires |parts| > 0 && AllFree(parts, c)
    ensures Split(Join(parts, c), c) == parts
  {
    if |parts| == 1 {
      SplitFree(parts[0], c);
    } else {
      SplitJoin(parts[1..], c);
      SplitHead(parts[0], Join(parts[1..], c), c);
    }
  }

  /** Prepending a character to the first part prepends it to the joined string. */
  lemma JoinPrepend(ch: char, parts: seq<string>, c: char)
    requires |parts| > 0
    ensures Join([[ch] + parts[0]] + parts[1..], c) == [ch] + Join(parts, c)
  {
    if |parts| > 1 {
      assert ([[ch] + parts[0]] + parts[1..])[1..] == parts[1..];
      assert [ch] + parts[0] + [c] + Join(parts[1..], c) == [ch] + (parts[0] + [c] + Join(parts[1..], c));
    }
  }

  /** Join undoes Split on every string, and the parts are separator-free. */
  lemma {:induction false} JoinSplit(s: string, c: char)
    ensures Join(Split(s, c), c) == s && AllFree(Split(s, c), c)
  {
    if s != "" {
      JoinSplit(s[1..], c);
      var rest := Split(s[1..], c);
      assert s == [s[0]] + s[1..];
      if s[0] == c {
        assert ([""] + rest)[1..] == rest;
        assert "" + [c] == [c];
      } else {
        JoinPrepend(s[0], rest, c);
        hide Join;
      }
    }
  }

  lemma {:induction false} JoinAppend(parts: seq<string>, last: string, c: char)
    requires |parts| > 0
    ensures Join(parts + [last], c) == Join(parts, c) + [c] + last
  {
    var all := parts + [last];
    assert all[1..] == parts[1..] + [last];
    if |parts| > 1 {
      JoinAppend(parts[1..], last, c);
    }
  }

  predicate HasPrefix(s: string, p: string) {
    p <= s
  }

  // ---- strconv ----

  predicate IsDigit(ch: char) {
    '0' <= ch <= '9'
  }

  predicate AllDigits(s: string) {
    forall i :: 0 <= i < |s| ==> IsDigit(s[i])
  }

  function Digits(s: string): (n: nat)
    requires AllDigits(s)
  {
    if s == "" then 0 else 10 * Digits(s[..|s| - 1]) + (s[|s| - 1] as int - '0' as int)
  }

  const MAX_INT := 0x7fff_ffff_ffff_ffff

  /** strconv.Atoi on a 64-bit platform: an optional sign, at least one digit, in range. */
  function Atoi(s: string): (r: Option<int>)
    ensures r.Some? ==> -MAX_INT - 1 <= r.value <= MAX_INT
  {
    var neg := s != "" && s[0] == '-';
    var body := if s != "" && (s[0] == '-' || s[0] == '+') then s[1..] else s;
    if body == "" || !AllDigits(body) then None
    else
      var d: int := Digits(body);
      var v := if neg then -d else d;
      if -MAX_INT - 1 <= v <= MAX_INT then Some(v) else None
  }

  /** strconv.Itoa on naturals. */
  function Itoa(n: nat): (s: string)
    ensures s != "" && AllDigits(s)
  {
    var d := ['0' + (n % 10) as char];
    if n < 10 then d else Itoa(n / 10) + d
  }

  lemma {:induction false} DigitsItoa(n: nat)
    ensures Digits(Itoa(n)) == n
  {
    var s := Itoa(n);
    if n < 10 {
      assert s[..|s| - 1] == "";
    } else {
      DigitsItoa(n / 10);
      assert s[..|s| - 1] == Itoa(n / 10);
    }
  }

  /** The first of several digits is not a zero. */
  lemma {:induction false} ItoaCanonical(n: nat)
    ensures |Itoa(n)| > 1 ==> Itoa(n)[0] != '0'
  {
    if n >= 10 {
      ItoaCanonical(n / 10);
      DigitsItoa(n / 10);
      if |Itoa(n / 10)| == 1 { assert Itoa(n / 10)[..0] == ""; }
    }
  }

  /** A count written with Itoa is read back unchanged by Atoi. */
  lemma AtoiItoa(n: nat)
    requires n <= MAX_INT
    ensures Atoi(Itoa(n)) == Some(n)
  {
    DigitsItoa(n);
    assert IsDigit(Itoa(n)[0]);
  }

  // ---- integers read off their characters ----

  function Pow10(n: nat): nat {
    if n == 0 then 1 else 10 * Pow10(n - 1)
  }

  /** The value of a digit string, place by place from the left. */
  function Places(s: string): int {
    if s == "" then 0 else (s[0] as int - 48) * Pow10(|s| - 1) + Places(s[1..])
  }

  /** An optional sign and at least one digit, together a 64-bit integer of value v. */
  predicate IsNumeral(s: string, v: int) {
    && |s| > 0
    && var start := if s[0] == '-' || s[0] == '+' then 1 else 0;
       && start < |s|
       && (forall i :: start <= i < |s| ==> '0' <= s[i] <= '9')
       && v == (if s[0] == '-' then -Places(s[start..]) else Places(s[start..]))
       && -9223372036854775808 <= v <= 9223372036854775807
  }

  ghost predicate IsIntegerText(s: string) {
    exists v :: IsNumeral(s, v)
  }

  /** Prepending a digit adds its place. */
  lemma {:induction false} DigitsFront(s: string)
    requires s != "" && AllDigits(s)
    ensures Digits(s) == (s[0] as int - 48) * Pow10(|s| - 1) + Digits(s[1..])
  {
    var n := |s| - 1;
    if n == 0 {
      assert s[..0] == "" && s[1..] == "";
    } else {
      DigitsFront(s[..n]);
      assert s[..n][1..] == s[1..][..n - 1];
      var d := s[0] as int - 48;
      assert 10 * (d * Pow10(n - 1)) == d * Pow10(n);
    }
  }

  lemma {:induction false} DigitsPlaces(s: string)
    requires AllDigits(s)
    ensures Digits(s) == Places(s)
  {
    if s != "" {
      DigitsFront(s);
      DigitsPlaces(s[1..]);
    }
  }

  /** Atoi accepts exactly the numerals, with their value. */
  lemma AtoiExact(s: string, v: int)
    ensures Atoi(s) == Some(v) <==> IsNumeral(s, v)
  {
    if s != "" {
      var start := if s[0] == '-' || s[0] == '+' then 1 else 0;
      var body := s[start..];
      assert body == if start == 1 then s[1..] else s;
      assert forall i :: start <= i < |s| ==> s[i] == body[i - start];
      if AllDigits(body) { DigitsPlaces(body); }
    }
  }

  lemma AtoiAccepts(s: string)
    ensures Atoi(s).Some? <==> IsIntegerText(s)
  {
    hide Atoi, IsNumeral;
    if Atoi(s).Some? { AtoiExact(s, Atoi(s).value); }
    forall v | IsNumeral(s, v) ensures Atoi(s).Some? { AtoiExact(s, v); }
  }
}
