/**
 * The string operations the engines apply to identifiers and locations:
 * ASCII case mapping (`toLowerCase`, `toUpperCase`), `slice(0, k)`,
 * `String(n)` for a natural number and `padStart(width, '0')`, with the
 * decimal reading that undoes them.
 */
module Text {

  function LowerChar(c: char): char
  {
    if 'A' <= c <= 'Z' then (c as int + 32) as char else c
  }

  function UpperChar(c: char): char
  {
    if 'a' <= c <= 'z' then (c as int - 32) as char else c
  }

  function Lower(s: string): string
  {
    seq(|s|, i requires 0 <= i < |s| => LowerChar(s[i]))
  }

  function Upper(s: string): string
  {
    seq(|s|, i requires 0 <= i < |s| => UpperChar(s[i]))
  }

  /** `a.toLowerCase() === b.toLowerCase()`. */
  predicate EqualIgnoringCase(a: string, b: string)
  {
    Lower(a) == Lower(b)
  }

  /** Lower-casing twice is lower-casing once. */
  lemma LowerIdempotent(s: string)
    ensures Lower(Lower(s)) == Lower(s)
  {
    assert forall i :: 0 <= i < |s| ==> LowerChar(LowerChar(s[i])) == LowerChar(s[i]);
  }

  /** Upper-casing first does not change what a case-insensitive comparison sees. */
  lemma LowerOfUpper(s: string)
    ensures Lower(Upper(s)) == Lower(s)
  {
    assert forall i :: 0 <= i < |s| ==> LowerChar(UpperChar(s[i])) == LowerChar(s[i]);
  }

  /** `s.slice(0, k)`: at most the first k characters. */
  function Take(s: string, k: nat): (r: string)
    ensures |r| <= k && r <= s
    ensures k <= |s| ==> |r| == k
  {
    if |s| <= k then s else s[..k]
  }

  function DigitChar(d: int): char
    requires 0 <= d < 10
  {
    ('0' as int + d) as char
  }

  function DigitValue(c: char): int
  {
    c as int - '0' as int
  }

  predicate IsDigit(c: char)
  {
    '0' <= c <= '9'
  }

  function Pow10(k: nat): nat
  {
    if k == 0 then 1 else 10 * Pow10(k - 1)
  }

  /** `String(n)` for a natural number: its decimal digits, most significant first. */
  function Decimal(n: nat): (r: string)
    ensures 1 <= |r|
    ensures forall i :: 0 <= i < |r| ==> IsDigit(r[i])
  {
    if n < 10 then [DigitChar(n)] else Decimal(n / 10) + [DigitChar(n % 10)]
  }

  /** The value of a string of decimal digits. */
  function ParseDecimal(s: string): int
  {
    if s == [] then 0 else ParseDecimal(s[..|s| - 1]) * 10 + DigitValue(s[|s| - 1])
  }

  /** Reading back the decimal form of n gives n. */
  lemma {:induction false} ParseDecimalOfDecimal(n: nat)
    ensures ParseDecimal(Decimal(n)) == n
  {
    if n >= 10 {
      ParseDecimalOfDecimal(n / 10);
      var s := Decimal(n);
      assert s[..|s| - 1] == Decimal(n / 10);
    }
  }

  /** A number below 10^k has at most k digits. */
  lemma {:induction false} DecimalLength(n: nat, k: nat)
    requires 1 <= k && n < Pow10(k)
    ensures |Decimal(n)| <= k
  {
    if n >= 10 {
      DecimalLength(n / 10, k - 1);
    }
  }

  /** k copies of c. */
  function Repeat(c: char, k: nat): (r: string)
    ensures |r| == k
    ensures forall i :: 0 <= i < k ==> r[i] == c
  {
    seq(k, _ => c)
  }

  /** Leading zeros do not change the value of a digit string. */
  lemma {:induction false} ParseDecimalIgnoresLeadingZeros(k: nat, s: string)
    ensures ParseDecimal(Repeat('0', k) + s) == ParseDecimal(s)
    decreases |s|, k
  {
    var z := Repeat('0', k);
    if s == [] {
      assert z + s == z;
      if k > 0 {
        assert z[..|z| - 1] == Repeat('0', k - 1) + [];
        ParseDecimalIgnoresLeadingZeros(k - 1, []);
      }
    } else {
      var t := z + s;
      assert t[..|t| - 1] == z + s[..|s| - 1];
      ParseDecimalIgnoresLeadingZeros(k, s[..|s| - 1]);
    }
  }

  /**
   * `s.padStart(width, pad)`: the result is as long as the longer of `s`
   * and `width`, ends with `s`, and every character before it is `pad`
   * (the prefix is a `Repeat` of `pad`).
   */
  function PadStart(s: string, width: nat, pad: char): (r: string)
    ensures |r| == if |s| >= width then |s| else width
    ensures r[|r| - |s|..] == s
    ensures r[..|r| - |s|] == Repeat(pad, |r| - |s|)
  {
    if |s| >= width then s else Repeat(pad, width - |s|) + s
  }

  /**
   * `String(n).padStart(width, '0')`: for n < 10^width exactly `width`
   * digits, and reading them back gives n.
   */
  function PaddedNumber(n: nat, width: nat): (r: string)
    requires 1 <= width && n < Pow10(width)
    ensures |r| == width
    ensures forall i :: 0 <= i < |r| ==> IsDigit(r[i])
    ensures ParseDecimal(r) == n
  {
    DecimalLength(n, width);
    ParseDecimalOfDecimal(n);
    var d := Decimal(n);
    ParseDecimalIgnoresLeadingZeros(width - |d|, d);
    PadStart(d, width, '0')
  }

  /** 'new' in any mix of letter cases, spelled out character by character. */
  predicate SpellsNew(f: string)
  {
    && |f| == 3
    && (f[0] == 'n' || f[0] == 'N')
    && (f[1] == 'e' || f[1] == 'E')
    && (f[2] == 'w' || f[2] == 'W')
  }

  /** `f.toLowerCase() === 'new'` holds exactly for the eight case spellings of 'new'. */
  lemma LowerIsNew(f: string)
    ensures Lower(f) == "new" <==> SpellsNew(f)
  {
    if SpellsNew(f) {
      assert Lower(f)[0] == 'n' && Lower(f)[1] == 'e' && Lower(f)[2] == 'w';
      assert Lower(f) == "new";
    }
    if Lower(f) == "new" {
      var l := Lower(f);
      assert |f| == |l| == 3;
      assert l[0] == LowerChar(f[0]) == 'n';
      assert l[1] == LowerChar(f[1]) == 'e';
      assert l[2] == LowerChar(f[2]) == 'w';
    }
  }

  /**
   * `formId.toLowerCase() === 'new' || !formId ? generated : formId`: the
   * empty id and every case spelling of 'new' are replaced by the generated
   * id; any other id is kept.
   */
  function ResolveId(formId: string, generated: string): (r: string)
    ensures formId == "" || SpellsNew(formId) ==> r == generated
    ensures formId != "" && !SpellsNew(formId) ==> r == formId
  {
    LowerIsNew(formId);
    if Lower(formId) == "new" || formId == "" then generated else formId
  }

  /** Every spelling of 'new' is a sentinel; an id that merely contains it is kept. */
  lemma SentinelSpellings(generated: string)
    ensures ResolveId("NEW", generated) == generated
    ensures ResolveId("New", generated) == generated
    ensures ResolveId("nEw", generated) == generated
    ensures ResolveId("", generated) == generated
    ensures ResolveId("NEWS-1", generated) == "NEWS-1"
    ensures ResolveId("PH-001", generated) == "PH-001"
  {
    assert Lower("NEW") == "new";
    assert Lower("New") == "new";
    assert Lower("nEw") == "new";
    assert |Lower("NEWS-1")| == 6;
    assert Lower("PH-001")[0] == 'p';
  }
}
