/** The per-building form id `image-form-${i}` and its inverse: the click
    handler splits the id on '-', takes the third piece, and uses that text as
    a key into the percentages array. */
module FormIds {
  import opened Options

  predicate IsDigit(c: char)
  {
    '0' <= c <= '9'
  }

  predicate AllDigits(s: string)
  {
    forall j :: 0 <= j < |s| ==> IsDigit(s[j])
  }

  function DigitChar(d: nat): (c: char)
    requires d < 10
    ensures IsDigit(c)
  {
    ('0' as int + d) as char
  }

  function DigitValue(c: char): (d: nat)
    requires IsDigit(c)
    ensures d < 10 && DigitChar(d) == c
  {
    c as int - '0' as int
  }

  /** Decimal text of a natural number, as a template literal renders it:
      no sign, no leading zero. */
  function DecimalString(n: nat): (r: string)
    ensures r != [] && AllDigits(r)
    ensures |r| > 1 ==> r[0] != '0'
    ensures n < 10 <==> |r| == 1
  {
    if n < 10 then [DigitChar(n)] else DecimalString(n / 10) + [DigitChar(n % 10)]
  }

  /** Value of a string of decimal digits. */
  function DecimalValue(s: string): nat
    requires AllDigits(s)
  {
    if s == [] then 0 else 10 * DecimalValue(s[..|s| - 1]) + DigitValue(s[|s| - 1])
  }

  /** A canonical array-index string: what makes `array[key]` address an
      element rather than an ordinary property. */
  predicate IsCanonicalIndex(key: string)
  {
    key != [] && AllDigits(key) && (|key| == 1 || key[0] != '0')
  }

  /** The element index a property key addresses, if any. */
  function IndexOfKey(key: string): (r: Option<nat>)
    ensures r.Some? <==> IsCanonicalIndex(key)
  {
    if IsCanonicalIndex(key) then Some(DecimalValue(key)) else None
  }

  /** `s.split(sep)` with a one-character separator: the pieces between
      separators, in order, empty pieces included. */
  function Split(s: string, sep: char): (parts: seq<string>)
    ensures parts != []
    ensures forall k :: 0 <= k < |parts| ==> sep !in parts[k]
  {
    if s == [] then [""]
    else if s[0] == sep then [""] + Split(s[1..], sep)
    else
      var rest := Split(s[1..], sep);
      [[s[0]] + rest[0]] + rest[1..]
  }

  /** `parts.join(sep)`, the reference inverse of Split. */
  function Join(parts: seq<string>, sep: char): string
    requires parts != []
  {
    if |parts| == 1 then parts[0] else parts[0] + [sep] + Join(parts[1..], sep)
  }

  /** Splitting loses nothing: joining the pieces gives the text back. */
  lemma {:induction false} JoinSplit(s: string, sep: char)
    ensures Join(Split(s, sep), sep) == s
  {
    if s != [] {
      var rest := Split(s[1..], sep);
      JoinSplit(s[1..], sep);
      if s[0] != sep {
        var parts := Split(s, sep);
        if |rest| == 1 {
          assert parts == [[s[0]] + rest[0]];
        } else {
          assert parts[1..] == rest[1..];
          assert [s[0]] + Join(rest, sep) == s;
        }
      }
    }
  }

  /** A separator-free piece followed by the separator splits off as the
      first piece. */
  lemma {:induction false} SplitPrefix(a: string, b: string, sep: char)
    requires sep !in a
    ensures Split(a + [sep] + b, sep) == [a] + Split(b, sep)
  {
    if a == [] {
      assert ([sep] + b)[1..] == b;
    } else {
      var s := a + [sep] + b;
      assert s[0] == a[0] && s[1..] == a[1..] + [sep] + b;
      SplitPrefix(a[1..], b, sep);
      var rest := Split(s[1..], sep);
      assert rest[0] == a[1..] && rest[1..] == Split(b, sep);
      assert [s[0]] + rest[0] == a;
    }
  }

  /** A separator-free text splits into itself. */
  lemma {:induction false} SplitWhole(s: string, sep: char)
    requires sep !in s
    ensures Split(s, sep) == [s]
  {
    if s != [] {
      SplitWhole(s[1..], sep);
      assert [s[0]] + s[1..] == s;
    }
  }

  /** The id of the form for building `i`. */
  function FormId(i: nat): string
  {
    "image-form-" + DecimalString(i)
  }

  /** `id.split('-')[2]`: the third piece, or undefined when there is none. */
  function FormIndexKey(id: string): (key: Option<string>)
    ensures key.Some? <==> |Split(id, '-')| > 2
  {
    var parts := Split(id, '-');
    if |parts| > 2 then Some(parts[2]) else None
  }

  /** Decimal text and its value are inverse on naturals. */
  lemma {:induction false} DecimalRoundTrip(n: nat)
    ensures DecimalValue(DecimalString(n)) == n
  {
    if n >= 10 {
      var s := DecimalString(n);
      assert s[..|s| - 1] == DecimalString(n / 10);
      DecimalRoundTrip(n / 10);
    }
  }

  /** A multi-digit string with no leading zero has a value of at least 10. */
  lemma {:induction false} LeadingDigitValue(s: string)
    requires AllDigits(s) && |s| > 1 && s[0] != '0'
    ensures DecimalValue(s) >= 10
  {
    if |s| > 2 {
      LeadingDigitValue(s[..|s| - 1]);
    } else {
      assert s[..1] == [s[0]];
      assert DecimalValue([s[0]]) == DigitValue(s[0]);
    }
  }

  /** Conversely, every canonical index string is the decimal text of its value. */
  lemma {:induction false} CanonicalRoundTrip(key: string)
    requires IsCanonicalIndex(key)
    ensures DecimalString(DecimalValue(key)) == key
  {
    if |key| == 1 {
      assert key[..0] == [];
    } else {
      var init := key[..|key| - 1];
      var last := DigitValue(key[|key| - 1]);
      LeadingDigitValue(key);
      assert IsCanonicalIndex(init);
      CanonicalRoundTrip(init);
      var v := DecimalValue(key);
      assert v == 10 * DecimalValue(init) + last;
      assert v / 10 == DecimalValue(init) && v % 10 == last;
      assert key == init + [key[|key| - 1]];
    }
  }

  /** The index a submitted form's id leads to is the index the form was
      built for: `id.split('-')[2]` on `image-form-${i}` is the text of `i`,
      and that text addresses element `i` of the array. */
  lemma FormIdRoundTrip(i: nat)
    ensures Split(FormId(i), '-') == ["image", "form", DecimalString(i)]
    ensures FormIndexKey(FormId(i)) == Some(DecimalString(i))
    ensures IndexOfKey(DecimalString(i)) == Some(i)
  {
    var digits := DecimalString(i);
    assert '-' !in digits;
    assert FormId(i) == "image" + ['-'] + ("form" + ['-'] + digits);
    SplitPrefix("image", "form" + ['-'] + digits, '-');
    SplitPrefix("form", digits, '-');
    SplitWhole(digits, '-');
    DecimalRoundTrip(i);
  }
}
