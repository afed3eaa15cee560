/** Comparing strings as Go does: byte by byte, a proper prefix first. */
module Text {
  /** Go's `<` on strings. */
  predicate Precedes(a: string, b: string)
    decreases |a|
  {
    if a == "" then b != ""
    else b != "" && (a[0] < b[0] || (a[0] == b[0] && Precedes(a[1..], b[1..])))
  }

  lemma {:induction false} Irreflexive(a: string)
    ensures !Precedes(a, a)
    decreases |a|
  {
    if a != "" {
      Irreflexive(a[1..]);
    }
  }

  lemma {:induction false} Asymmetric(a: string, b: string)
    ensures !(Precedes(a, b) && Precedes(b, a))
    decreases |a|
  {
    if a != "" && b != "" {
      Asymmetric(a[1..], b[1..]);
    }
  }

  lemma {:induction false} Total(a: string, b: string)
    ensures a == b || Precedes(a, b) || Precedes(b, a)
    decreases |a|
  {
    if a != "" && b != "" {
      Total(a[1..], b[1..]);
      assert a == [a[0]] + a[1..] && b == [b[0]] + b[1..];
    }
  }

  lemma {:induction false} Transitive(a: string, b: string, c: string)
    requires Precedes(a, b) && Precedes(b, c)
    ensures Precedes(a, c)
    decreases |a|
  {
    if a != "" && a[0] == b[0] && b[0] == c[0] {
      Transitive(a[1..], b[1..], c[1..]);
    }
  }

  /** `strings.Contains`. */
  predicate Contains(text: string, part: string)
    decreases |text|
  {
    |part| <= |text| && (text[..|part|] == part || (text != "" && Contains(text[1..], part)))
  }

  /** `a` comes first: at the first place where the two differ it has the smaller byte, or it ends there. */
  ghost predicate FirstDifference(a: string, b: string) {
    exists k :: 0 <= k <= |a| && k < |b| && a[..k] == b[..k] && (k == |a| || a[k] < b[k])
  }

  lemma FirstsAgree(a: string, b: string, k: nat)
    requires 0 < k <= |a| && k <= |b| && a[..k] == b[..k]
    ensures a[0] == b[0]
  {
    assert a[..k][0] == b[..k][0];
  }

  lemma {:induction false} PrecedesMeans(a: string, b: string)
    ensures Precedes(a, b) <==> FirstDifference(a, b)
    decreases |a|
  {
    if b != "" {
      if a == "" || a[0] < b[0] {
        assert a[..0] == b[..0];
      } else if a[0] == b[0] {
        PrecedesMeans(a[1..], b[1..]);
        if FirstDifference(a[1..], b[1..]) {
          var k :| 0 <= k <= |a[1..]| && k < |b[1..]| && a[1..][..k] == b[1..][..k] && (k == |a[1..]| || a[1..][k] < b[1..][k]);
          assert a[..k + 1] == [a[0]] + a[1..][..k] && b[..k + 1] == [b[0]] + b[1..][..k];
        }
        if FirstDifference(a, b) {
          var k :| 0 <= k <= |a| && k < |b| && a[..k] == b[..k] && (k == |a| || a[k] < b[k]);
          assert k > 0;
          assert a[1..][..k - 1] == a[..k][1..] && b[1..][..k - 1] == b[..k][1..];
        }
      } else if FirstDifference(a, b) {
        var k :| 0 <= k <= |a| && k < |b| && a[..k] == b[..k] && (k == |a| || a[k] < b[k]);
        FirstsAgree(a, b, k);
        assert false;
      }
    }
  }

  /** The part stands somewhere in the text. */
  ghost predicate Occurs(part: string, text: string) {
    exists i :: 0 <= i <= |text| && part <= text[i..]
  }

  lemma {:induction false} ContainsMeans(text: string, part: string)
    ensures Contains(text, part) <==> Occurs(part, text)
    decreases |text|
  {
    if |part| <= |text| {
      if text[..|part|] == part {
        assert text[0..] == text;
      } else if text != "" {
        ContainsMeans(text[1..], part);
        if Occurs(part, text[1..]) {
          var i :| 0 <= i <= |text[1..]| && part <= text[1..][i..];
          assert text[i + 1..] == text[1..][i..];
        }
        if Occurs(part, text) {
          var i :| 0 <= i <= |text| && part <= text[i..];
          assert i > 0 by { assert text[0..] == text; }
          assert text[1..][i - 1..] == text[i..];
        }
      }
    }
  }

  // ---- decimal numbers -----------------------------------------------------------------------

  predicate IsDigit(c: char) {
    '0' <= c <= '9'
  }

  predicate Digits(s: string) {
    forall i | 0 <= i < |s| :: IsDigit(s[i])
  }

  /** The number a run of digits stands for, of any length. */
  function Value(s: string): nat
    requires Digits(s)
  {
    if s == "" then 0 else 10 * Value(s[..|s| - 1]) + (s[|s| - 1] - '0') as nat
  }

  /** Powers of ten. */
  function Power(n: nat): nat {
    if n == 0 then 1 else 10 * Power(n - 1)
  }

  /** Decimal notation. */
  function Decimal(n: nat): (s: string)
    ensures s != "" && Digits(s)
  {
    if n < 10 then ['0' + n as char] else Decimal(n / 10) + ['0' + (n % 10) as char]
  }

  lemma {:induction false} DecimalValue(n: nat)
    ensures Value(Decimal(n)) == n
  {
    if n >= 10 {
      DecimalValue(n / 10);
      var s := Decimal(n);
      assert s[..|s| - 1] == Decimal(n / 10);
    } else {
      assert Decimal(n)[..0] == "";
    }
  }

  /** `strings.Fields`, for ASCII space. */
  predicate IsSpace(c: char) {
    c == ' ' || c == '\n' || c == '\t' || c == '\r' || c == 11 as char || c == 12 as char
  }

  function RunLength(s: string): (n: nat)
    ensures n <= |s| && (forall k | 0 <= k < n :: !IsSpace(s[k])) && (n < |s| ==> IsSpace(s[n]))
  {
    if s == "" || IsSpace(s[0]) then 0 else RunLength(s[1..]) + 1
  }

  function Fields(s: string): seq<string>
    decreases |s|
  {
    if s == "" then []
    else if IsSpace(s[0]) then Fields(s[1..])
    else [s[..RunLength(s)]] + Fields(s[RunLength(s)..])
  }

  /** A field followed by space is one field. */
  lemma FieldFirst(field: string, space: char, rest: string)
    requires field != "" && (forall k | 0 <= k < |field| :: !IsSpace(field[k])) && IsSpace(space)
    ensures Fields(field + [space] + rest) == [field] + Fields(rest)
  {
    var s := field + [space] + rest;
    var n := RunLength(s);
    assert forall k | 0 <= k < |field| :: s[k] == field[k] && !IsSpace(s[k]);
    assert s[|field|] == space;
    assert n < |s| ==> IsSpace(s[n]);
    assert s[..n] == field && s[n..] == [space] + rest && ([space] + rest)[1..] == rest;
  }
}
