/** The page-count estimate the scraper takes from the first listing page:
    `find_number_of_aziende` (the `<number> aziende` heading, read with the
    regular expression `([\d.]+)\s+aziende`, case-insensitive) and
    `find_last_page_number` (the capped arithmetic guess). */
module PageCount {
  import opened Py

  /** Total assumed when the heading, or a match in it, is absent. */
  const DefaultTotal: nat := 1
  /** `rows_per_page_guess = total_rows + 9`, then `// 20 + 1`, then `min(…, 200)`. */
  const Padding: nat := 9
  const RowsPerPage: nat := 20
  const MaxPages: nat := 200

  /** The word the count must be followed by. */
  const Keyword: string := "aziende"

  /** `[\d.]`: a decimal digit or a dot (the thousands separator). */
  predicate IsDigitOrDot(c: char) { IsDigit(c) || c == '.' }

  /** `\s` on a Python `str`: the characters `str.isspace()` accepts. */
  predicate IsSpace(c: char) {
    var n := c as int;
    (0x09 <= n <= 0x0D) || (0x1C <= n <= 0x20) || n == 0x85 || n == 0xA0 || n == 0x1680
    || (0x2000 <= n <= 0x200A) || n == 0x2028 || n == 0x2029 || n == 0x202F || n == 0x205F
    || n == 0x3000
  }

  /** Character `c` matches the lower-case pattern letter `p` under `re.IGNORECASE`:
      itself, its ASCII upper case, and for `i` also the dotted capital I and dotless i. */
  predicate MatchesIgnoringCase(c: char, p: char)
    requires 'a' <= p <= 'z'
  {
    c == p || c as int == p as int - 32 || (p == 'i' && (c as int == 0x130 || c as int == 0x131))
  }

  /** The keyword starts at position `k` of `t`, case-insensitively. */
  predicate KeywordAt(t: string, k: nat) {
    k + |Keyword| <= |t| && forall m :: 0 <= m < |Keyword| ==> MatchesIgnoringCase(t[k + m], Keyword[m])
  }

  /** The end of the longest run of digits and dots that starts at `i`. */
  function GroupEnd(t: string, i: nat): (j: nat)
    requires i <= |t|
    ensures i <= j <= |t|
    ensures forall m :: i <= m < j ==> IsDigitOrDot(t[m])
    ensures j < |t| ==> !IsDigitOrDot(t[j])
    decreases |t| - i
  {
    if i == |t| || !IsDigitOrDot(t[i]) then i else GroupEnd(t, i + 1)
  }

  /** The end of the longest run of white space that starts at `i`. */
  function SpacesEnd(t: string, i: nat): (j: nat)
    requires i <= |t|
    ensures i <= j <= |t|
    ensures forall m :: i <= m < j ==> IsSpace(t[m])
    ensures j < |t| ==> !IsSpace(t[j])
    decreases |t| - i
  {
    if i == |t| || !IsSpace(t[i]) then i else SpacesEnd(t, i + 1)
  }

  /** A run of digits and dots that ends where they stop ends where `GroupEnd` says. */
  lemma GroupEndIs(t: string, i: nat, j: nat)
    requires i <= j <= |t|
    requires forall m :: i <= m < j ==> IsDigitOrDot(t[m])
    requires j < |t| ==> !IsDigitOrDot(t[j])
    ensures GroupEnd(t, i) == j
  {
    // `GroupEnd`'s ensures already pin its result: two maximal runs from `i`
    // end at the same place.
  }

  /** A run of white space that ends where it stops ends where `SpacesEnd` says. */
  lemma SpacesEndIs(t: string, i: nat, j: nat)
    requires i <= j <= |t|
    requires forall m :: i <= m < j ==> IsSpace(t[m])
    requires j < |t| ==> !IsSpace(t[j])
    ensures SpacesEnd(t, i) == j
  {
    // `SpacesEnd`'s ensures already pin its result: two maximal runs from `i`
    // end at the same place.
  }

  /** Declarative reading of the pattern: `t[i..j]` is a group `[\d.]+` that is
      followed by `\s+` and the keyword. */
  ghost predicate MatchesWithGroup(t: string, i: nat, j: nat) {
    i < j <= |t| && (forall m :: i <= m < j ==> IsDigitOrDot(t[m]))
    && exists k :: j < k <= |t| && (forall m :: j <= m < k ==> IsSpace(t[m])) && KeywordAt(t, k)
  }

  /** Whether the pattern matches at position `i`, and where its group ends.
      Both repetitions are greedy, and neither can give back a character: the
      group must be followed by a space and the spaces by the letter `a`. */
  function MatchAt(t: string, i: nat): Option<nat>
    requires i <= |t|
  {
    var j := GroupEnd(t, i);
    var k := SpacesEnd(t, j);
    if i < j && j < k && KeywordAt(t, k) then Some(j) else None
  }

  /** `MatchAt` finds a match exactly when the pattern has one at `i`, and it
      reports the only group end a match at `i` can have. */
  lemma MatchAtIsPattern(t: string, i: nat)
    requires i <= |t|
    ensures MatchAt(t, i).Some? ==> MatchesWithGroup(t, i, MatchAt(t, i).value)
    ensures forall j: nat :: MatchesWithGroup(t, i, j) ==> MatchAt(t, i) == Some(j)
  {
    var j := GroupEnd(t, i);
    var k := SpacesEnd(t, j);
    if MatchAt(t, i).Some? {
      assert j < k <= |t| && (forall m :: j <= m < k ==> IsSpace(t[m])) && KeywordAt(t, k);
    }
    forall j': nat | MatchesWithGroup(t, i, j')
      ensures MatchAt(t, i) == Some(j')
    {
      var k' :| j' < k' <= |t| && (forall m :: j' <= m < k' ==> IsSpace(t[m])) && KeywordAt(t, k');
      assert !IsDigitOrDot(t[j']);
      GroupEndIs(t, i, j');
      assert Keyword[0] == 'a' && MatchesIgnoringCase(t[k' + 0], Keyword[0]);
      assert !IsSpace(t[k']);
      SpacesEndIs(t, j', k');
    }
  }

  /** `re.search`: the first position at or after `i` where the pattern matches. */
  function SearchFrom(t: string, i: nat): (r: Option<nat>)
    requires i <= |t|
    ensures r.Some? ==> i <= r.value <= |t| && MatchAt(t, r.value).Some?
    ensures r.Some? ==> forall m :: i <= m < r.value ==> MatchAt(t, m).None?
    ensures r.None? ==> forall m :: i <= m <= |t| ==> MatchAt(t, m).None?
    decreases |t| - i
  {
    if MatchAt(t, i).Some? then Some(i)
    else if i == |t| then None
    else SearchFrom(t, i + 1)
  }

  /** `group(1)` of `re.search(r'([\d.]+)\s+aziende', t, re.IGNORECASE)`. */
  function SearchGroup(t: string): (g: Option<string>)
    ensures g.Some? ==> |g.value| > 0 && forall m :: 0 <= m < |g.value| ==> IsDigitOrDot(g.value[m])
  {
    match SearchFrom(t, 0)
    case None => None
    case Some(i) => Some(t[i..MatchAt(t, i).value])
  }

  /** `s.replace('.', '')`. */
  function RemoveDots(s: string): (r: string)
    ensures |r| <= |s| && forall m :: 0 <= m < |r| ==> r[m] != '.'
    ensures (forall m :: 0 <= m < |s| ==> IsDigitOrDot(s[m])) ==> AllDigits(r)
  {
    if s == [] then [] else (if s[0] == '.' then [] else [s[0]]) + RemoveDots(s[1..])
  }

  /** A lone dot is dropped. */
  lemma RemoveDotsOfDot()
    ensures RemoveDots(".") == ""
  {
    assert "."[1..] == [];
  }

  lemma {:induction false} RemoveDotsAppend(a: string, b: string)
    ensures RemoveDots(a + b) == RemoveDots(a) + RemoveDots(b)
    decreases |a|
  {
    if a != [] {
      var piece := if a[0] == '.' then [] else [a[0]];
      assert (a + b)[0] == a[0] && (a + b)[1..] == a[1..] + b;
      assert RemoveDots(a + b) == piece + RemoveDots(a[1..] + b);
      RemoveDotsAppend(a[1..], b);
      assert RemoveDots(a) == piece + RemoveDots(a[1..]);
    } else {
      assert a + b == b;
    }
  }

  lemma {:induction false} RemoveDotsOfDigits(s: string)
    requires AllDigits(s)
    ensures RemoveDots(s) == s
    decreases |s|
  {
    if s != [] {
      RemoveDotsOfDigits(s[1..]);
    }
  }

  /** `find_number_of_aziende`, on the text of the `h2` heading (absent when the
      page has none): the matched number without its dots, else 1. A number made
      only of dots reaches `int("")`, which raises `ValueError`. */
  function NumberOfAziende(heading: Option<string>): (r: Result<nat>)
    ensures heading.None? ==> r == Ok(DefaultTotal)
    ensures heading.Some? && SearchGroup(heading.value).None? ==> r == Ok(DefaultTotal)
    ensures r.Raised? <==> heading.Some? && SearchGroup(heading.value).Some?
                           && (RemoveDots(SearchGroup(heading.value).value) == ""
                               || |RemoveDots(SearchGroup(heading.value).value)| > MaxStrDigits)
    ensures r.Raised? ==> r.error == ValueError
  {
    match heading
    case None => Ok(DefaultTotal)
    case Some(text) =>
      match SearchGroup(text)
      case None => Ok(DefaultTotal)
      case Some(token) =>
        ParseInt(RemoveDots(token))
  }

  /** A heading that begins with a number, spaces and the keyword has that
      number as its group. */
  lemma GroupOfLeadingNumber(token: string, spaces: string, rest: string)
    requires |token| > 0 && forall m :: 0 <= m < |token| ==> IsDigitOrDot(token[m])
    requires |spaces| > 0 && forall m :: 0 <= m < |spaces| ==> IsSpace(spaces[m])
    ensures SearchGroup(token + spaces + Keyword + rest) == Some(token)
  {
    var t := token + spaces + Keyword + rest;
    var j, k := |token|, |token| + |spaces|;
    assert forall m :: 0 <= m < j ==> t[m] == token[m];
    assert forall m :: j <= m < k ==> t[m] == spaces[m - j];
    assert forall m :: 0 <= m < |Keyword| ==> t[k + m] == Keyword[m];
    GroupEndIs(t, 0, j);
    SpacesEndIs(t, j, k);
    assert KeywordAt(t, k);
    assert MatchAt(t, 0) == Some(j);
    assert t[0..j] == token;
  }

  /** Such a heading counts that number with its dots dropped; a number made
      only of dots, or with more digits than `int()` accepts, raises. */
  lemma CountOfLeadingNumber(token: string, spaces: string, rest: string)
    requires |token| > 0 && forall m :: 0 <= m < |token| ==> IsDigitOrDot(token[m])
    requires |spaces| > 0 && forall m :: 0 <= m < |spaces| ==> IsSpace(spaces[m])
    ensures NumberOfAziende(Some(token + spaces + Keyword + rest)) ==
            if RemoveDots(token) == "" || |RemoveDots(token)| > MaxStrDigits then Raised(ValueError)
            else Ok(DecimalValue(RemoveDots(token)))
  {
    GroupOfLeadingNumber(token, spaces, rest);
  }

  /** A heading whose leftmost match starts at `i`, after any other text,
      has that match's group as its number, and counts it with its dots
      dropped. */
  lemma CountOfLeftmostMatch(t: string, i: nat, j: nat)
    requires i <= |t| && MatchesWithGroup(t, i, j)
    requires forall m: nat, j': nat :: m < i ==> !MatchesWithGroup(t, m, j')
    ensures SearchGroup(t) == Some(t[i..j])
    ensures NumberOfAziende(Some(t)) == ParseInt(RemoveDots(t[i..j]))
  {
    MatchAtIsPattern(t, i);
    forall m | 0 <= m < i
      ensures MatchAt(t, m).None?
    {
      MatchAtIsPattern(t, m);
    }
    var r := SearchFrom(t, 0);
    assert r.Some?;
  }

  /** The count as the site prints it, with a dot every three digits. */
  function GroupThousands(digits: string): string {
    if |digits| <= 3 then digits else GroupThousands(digits[..|digits| - 3]) + "." + digits[|digits| - 3..]
  }

  /** Joining a dotted number and more digits with a dot keeps it made of
      digits and dots. */
  lemma JoinGroupChars(g: string, tail: string)
    requires forall m :: 0 <= m < |g| ==> IsDigitOrDot(g[m])
    requires AllDigits(tail)
    ensures forall m :: 0 <= m < |g + "." + tail| ==> IsDigitOrDot((g + "." + tail)[m])
  {
    var r := g + "." + tail;
    forall m | 0 <= m < |r| ensures IsDigitOrDot(r[m]) {
      if m < |g| {
        assert r[m] == g[m];
      } else if m > |g| {
        assert r[m] == tail[m - |g| - 1];
      }
    }
  }

  /** Dropping the dots of such a join joins the digits. */
  lemma JoinGroupDigits(g: string, tail: string)
    requires AllDigits(tail)
    ensures RemoveDots(g + "." + tail) == RemoveDots(g) + tail
  {
    RemoveDotsAppend(g + ".", tail);
    RemoveDotsAppend(g, ".");
    RemoveDotsOfDigits(tail);
    RemoveDotsOfDot();
    assert RemoveDots(g + ".") == RemoveDots(g) + [];
    assert RemoveDots(g) + [] == RemoveDots(g);
  }

  lemma {:induction false} GroupThousandsShape(digits: string)
    requires AllDigits(digits)
    ensures RemoveDots(GroupThousands(digits)) == digits
    ensures |GroupThousands(digits)| >= |digits|
    ensures forall m :: 0 <= m < |GroupThousands(digits)| ==> IsDigitOrDot(GroupThousands(digits)[m])
    decreases |digits|
  {
    if |digits| <= 3 {
      RemoveDotsOfDigits(digits);
    } else {
      var head, tail := digits[..|digits| - 3], digits[|digits| - 3..];
      GroupThousandsShape(head);
      var g := GroupThousands(head);
      assert GroupThousands(digits) == g + "." + tail;
      JoinGroupChars(g, tail);
      JoinGroupDigits(g, tail);
      assert head + tail == digits;
    }
  }

  /** Reading the heading `"<n with thousands dots> aziende"` gives back `n`,
      for every n within the digit limit. */
  lemma CountOfFormattedHeading(n: nat)
    requires |NatToString(n)| <= MaxStrDigits
    ensures NumberOfAziende(Some(GroupThousands(NatToString(n)) + " " + Keyword)) == Ok(n)
  {
    var digits := NatToString(n);
    var token := GroupThousands(digits);
    GroupThousandsShape(digits);
    CountOfLeadingNumber(token, " ", "");
    assert token + " " + Keyword + "" == token + " " + Keyword;
    DecimalValueOfNatToString(n);
  }

  /** `"1.234 aziende"` counts 1234. */
  lemma CountWithSeparator(heading: string)
    requires heading == "1.234 aziende"
    ensures NumberOfAziende(Some(heading)) == Ok(1234)
  {
    var n: nat := 1234;
    Spelling1234();
    assert heading == GroupThousands(NatToString(n)) + " " + Keyword;
    CountOfFormattedHeading(n);
  }

  /** `str(1234)` and its dotted spelling. */
  lemma Spelling1234()
    ensures NatToString(1234) == "1234" && GroupThousands("1234") == "1.234"
  {
    assert NatToString(12) == "12";
    assert NatToString(1234) == NatToString(123) + "4";
    assert "1234"[..1] == "1";
  }

  /** Prefixing `"0."` keeps a number made of digits and dots, and adds one
      `0` once the dots are dropped. */
  lemma ZeroPointPrefix(g: string)
    requires forall m :: 0 <= m < |g| ==> IsDigitOrDot(g[m])
    ensures forall m :: 0 <= m < |"0." + g| ==> IsDigitOrDot(("0." + g)[m])
    ensures RemoveDots("0." + g) == "0" + RemoveDots(g)
  {
    var token := "0." + g;
    forall m | 0 <= m < |token| ensures IsDigitOrDot(token[m]) {
      if m >= 2 {
        assert token[m] == g[m - 2];
      }
    }
    RemoveDotsAppend("0.", g);
    assert RemoveDots("0.") == "0" by {
      assert "0."[1..] == ".";
      RemoveDotsOfDot();
    }
  }

  /** A leading zero is read and ignored: `"0.<n with thousands dots> aziende"`
      counts n, for every n within the digit limit. */
  lemma CountWithLeadingZero(n: nat)
    requires |NatToString(n)| < MaxStrDigits
    ensures NumberOfAziende(Some("0." + GroupThousands(NatToString(n)) + " " + Keyword)) == Ok(n)
  {
    var digits := NatToString(n);
    var g := GroupThousands(digits);
    GroupThousandsShape(digits);
    ZeroPointPrefix(g);
    var token := "0." + g;
    assert RemoveDots(token) == "0" + digits;
    CountOfLeadingNumber(token, " ", "");
    assert token + " " + Keyword + "" == "0." + g + " " + Keyword;
    LeadingZeroIgnored(digits);
    DecimalValueOfNatToString(n);
  }

  /** A count with more digits than `int()` accepts raises instead of counting. */
  lemma LongCountRaises(digits: string)
    requires AllDigits(digits) && |digits| > MaxStrDigits
    ensures NumberOfAziende(Some(digits + " " + Keyword)) == Raised(ValueError)
  {
    CountOfLeadingNumber(digits, " ", "");
    RemoveDotsOfDigits(digits);
    assert digits + " " + Keyword + "" == digits + " " + Keyword;
  }

  /** A number made only of dots raises instead of counting. */
  lemma CountOfDotsRaises(heading: string)
    requires heading == ". aziende"
    ensures NumberOfAziende(Some(heading)) == Raised(ValueError)
  {
    var token := ".";
    assert heading == token + " " + Keyword + "";
    CountOfLeadingNumber(token, " ", "");
    RemoveDotsOfDot();
  }

  /** `find_last_page_number`'s arithmetic on the total: about one page per
      twenty results, rounded, and never more than 200 pages. */
  function LastPageNumber(totalRows: nat): (lastPage: nat)
    ensures 1 <= lastPage <= MaxPages
    ensures lastPage < MaxPages ==>
              RowsPerPage * (lastPage - 1) <= totalRows + Padding < RowsPerPage * lastPage
    ensures lastPage == MaxPages <==> totalRows >= 3971
  {
    var rowsPerPageGuess := totalRows + Padding;
    var lastPage := rowsPerPageGuess / RowsPerPage + 1;
    if lastPage < MaxPages then lastPage else MaxPages
  }

  /** More results never give fewer pages. */
  lemma LastPageMonotone(a: nat, b: nat)
    requires a <= b
    ensures LastPageNumber(a) <= LastPageNumber(b)
  {
    if LastPageNumber(b) < MaxPages {
      assert RowsPerPage * (LastPageNumber(a) - 1) <= a + Padding <= b + Padding < RowsPerPage * LastPageNumber(b);
    }
  }

  /** `find_last_page_number` on the first page's heading. */
  function FindLastPageNumber(heading: Option<string>): (r: Result<nat>)
    ensures r.Ok? ==> 1 <= r.value <= MaxPages
    ensures r.Ok? <==> NumberOfAziende(heading).Ok?
    ensures heading.None? ==> r == Ok(1)
  {
    match NumberOfAziende(heading)
    case Ok(total) => Ok(LastPageNumber(total))
    case Raised(e) => Raised(e)
  }

  /** Without a heading or a match in it the estimate is one page. */
  lemma DefaultEstimate(heading: Option<string>)
    requires heading.None? || SearchGroup(heading.value).None?
    ensures FindLastPageNumber(heading) == Ok(1)
  {
  }

  /** `"150 aziende"` gives 8 pages. */
  lemma EstimateOf150(heading: string)
    requires heading == "150 aziende"
    ensures FindLastPageNumber(Some(heading)) == Ok(8)
  {
    var n: nat := 150;
    assert NatToString(n) == "150" by {
      assert NatToString(n) == NatToString(15) + [DigitChar(0)];
    }
    assert heading == GroupThousands(NatToString(n)) + " " + Keyword;
    CountOfFormattedHeading(n);
    assert LastPageNumber(n) == 8;
  }
}
