/**
 The output file name of an invoice (sync.rb line 128): the invoice date's
 text with hyphens deleted, an underscore, the customer's name with spaces
 turned into underscores, and the extension ".tex".

 The date's text (Ruby's `Date#to_s`, an ISO date such as "2024-03-01") is
 passed in as it is, since dates are day numbers in this model.
 Ruby raises on a missing customer or a customer without a name; here the
 result is then `None`.
 */
module FileNames {
  import opened Wrappers
  import opened Billing

  /** `s` with every '-' deleted (Ruby's `gsub('-', '')`). */
  function StripHyphens(s: string): (r: string)
    ensures '-' !in r
    ensures |r| <= |s|
    ensures forall c :: c in r ==> c in s
    ensures '-' !in s ==> r == s
    decreases |s|
  {
    if |s| == 0 then ""
    else (if s[0] == '-' then "" else [s[0]]) + StripHyphens(s[1..])
  }

  /** `s` with every ' ' replaced by '_' (Ruby's `gsub(' ', '_')`). */
  function SpacesToUnderscores(s: string): (r: string)
    ensures |r| == |s|
    ensures ' ' !in r
    ensures forall i :: 0 <= i < |s| && s[i] != ' ' ==> r[i] == s[i]
    ensures forall i :: 0 <= i < |s| && s[i] == ' ' ==> r[i] == '_'
    decreases |s|
  {
    if |s| == 0 then ""
    else [if s[0] == ' ' then '_' else s[0]] + SpacesToUnderscores(s[1..])
  }

  /** Deleting hyphens works piecewise: it distributes over concatenation. */
  lemma {:induction false} StripHyphensConcat(a: string, b: string)
    ensures StripHyphens(a + b) == StripHyphens(a) + StripHyphens(b)
    decreases |a|
  {
    if |a| == 0 {
      assert a + b == b;
    } else {
      var head := if a[0] == '-' then "" else [a[0]];
      var ab := a + b;
      assert ab[0] == a[0];
      assert ab[1..] == a[1..] + b;
      calc {
        StripHyphens(ab);
        head + StripHyphens(a[1..] + b);
        { StripHyphensConcat(a[1..], b); }
        head + (StripHyphens(a[1..]) + StripHyphens(b));
        (head + StripHyphens(a[1..])) + StripHyphens(b);
        StripHyphens(a) + StripHyphens(b);
      }
    }
  }

  /** Replacing spaces works piecewise: it distributes over concatenation. */
  lemma SpacesToUnderscoresConcat(a: string, b: string)
    ensures SpacesToUnderscores(a + b) == SpacesToUnderscores(a) + SpacesToUnderscores(b)
  {
    var r, ra, rb := SpacesToUnderscores(a + b), SpacesToUnderscores(a), SpacesToUnderscores(b);
    forall i | 0 <= i < |r|
      ensures r[i] == (ra + rb)[i]
    {
      if i < |a| {
        assert (a + b)[i] == a[i];
      } else {
        assert (a + b)[i] == b[i - |a|];
      }
    }
  }

  /** Deleting hyphens keeps every other character as often as the input has it. */
  lemma {:induction false} StripHyphensCounts(s: string)
    ensures multiset(StripHyphens(s)) == multiset(s)['-' := 0]
    decreases |s|
  {
    if |s| > 0 {
      assert s == [s[0]] + s[1..];
      StripHyphensCounts(s[1..]);
    }
  }

  /** An ISO date "YYYY-MM-DD" loses exactly its two separators. */
  lemma DateWithoutHyphens(year: string, month: string, day: string)
    requires '-' !in year && '-' !in month && '-' !in day
    ensures StripHyphens(year + "-" + month + "-" + day) == year + month + day
  {
    assert StripHyphens("-") == "";
    var withYear := year + "-";
    StripHyphensConcat(year, "-");
    assert StripHyphens(withYear) == year;
    var withMonth := withYear + month;
    StripHyphensConcat(withYear, month);
    assert StripHyphens(withMonth) == year + month;
    StripHyphensConcat(withMonth, "-");
    assert StripHyphens(withMonth + "-") == year + month;
    StripHyphensConcat(withMonth + "-", day);
  }

  /** The file name of `inv`, given the text of its date; `None` where Ruby
      would fail because the customer or its name is `nil`. */
  function FileName(inv: Invoice, dateText: string): (r: Option<string>)
    ensures r.Some? <==> inv.customer.Some? && |inv.customer.value.address| > 0
    ensures r.Some? ==> |r.value| >= 5 && r.value[|r.value| - 4..] == ".tex"
  {
    match inv.customer
    case None => None
    case Some(c) =>
      match Name(c)
      case None => None
      case Some(name) => Some(StripHyphens(dateText) + "_" + SpacesToUnderscores(name) + ".tex")
  }

  /** A file name is the date text without hyphens, "_", the customer's name
      with spaces turned into underscores, and ".tex"; the date part holds no
      hyphen and the name part no space and has the name's length. */
  lemma FileNameParts(inv: Invoice, dateText: string)
    requires FileName(inv, dateText).Some?
    ensures inv.customer.Some? && Name(inv.customer.value).Some?
    ensures var d, n := StripHyphens(dateText), SpacesToUnderscores(Name(inv.customer.value).value);
            && FileName(inv, dateText).value == d + "_" + n + ".tex"
            && '-' !in d && |d| <= |dateText|
            && ' ' !in n && |n| == |Name(inv.customer.value).value|
  {
  }
}
