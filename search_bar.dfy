/**
  The search bar: classification of a free-text query into one of six kinds, the route a
  query navigates to, and the form state (`query`, `isLoading`) that `handleSearch` updates.
*/
module SearchBar {
  import opened Wrappers
  import Js

  datatype SearchType = Transaction | Address | Block | Batch | Name | Unknown

  // ---------------------------------------------------------------------------
  // The regular expressions of the classifier, as predicates over the trimmed input
  // ---------------------------------------------------------------------------

  /** `^0x[a-fA-F0-9]{n}$`: a lower-case `0x`, then exactly `n` hexadecimal digits of either case. */
  predicate IsPrefixedHex(s: string, n: nat) {
    && |s| == n + 2
    && s[0] == '0' && s[1] == 'x'
    && forall i :: 2 <= i < |s| ==> Js.IsHexDigit(s[i])
  }

  const BatchPrefix: string := "batch:"

  /** `^batch:\d+$` with the `i` flag: `batch:` in any letter case, then one or more digits. */
  predicate IsBatchRef(s: string) {
    && |s| > |BatchPrefix|
    && (forall i :: 0 <= i < |BatchPrefix| ==> Js.LowerAscii(s[i]) == BatchPrefix[i])
    && Js.IsDigits(s[|BatchPrefix|..])
  }

  /** The class `[a-zA-Z0-9]`. */
  predicate IsAlphanumeric(c: char) {
    'a' <= c <= 'z' || 'A' <= c <= 'Z' || '0' <= c <= '9'
  }

  /** The class `[a-zA-Z0-9.-]`. */
  predicate IsNameChar(c: char) {
    IsAlphanumeric(c) || c == '.' || c == '-'
  }

  /** `^[a-zA-Z0-9.-]+$` together with `includes('.')`. */
  predicate IsDottedName(s: string) {
    |s| > 0 && (forall i :: 0 <= i < |s| ==> IsNameChar(s[i])) && '.' in s
  }

  /** `^[a-zA-Z0-9]+$`. */
  predicate IsSimpleName(s: string) {
    |s| > 0 && forall i :: 0 <= i < |s| ==> IsAlphanumeric(s[i])
  }

  /** Some rule of the cascade matches the trimmed input. */
  predicate MatchesSomeRule(t: string) {
    IsPrefixedHex(t, 64) || IsPrefixedHex(t, 40) || Js.IsDigits(t) || IsBatchRef(t)
    || IsDottedName(t) || IsSimpleName(t)
  }

  // ---------------------------------------------------------------------------
  // detectSearchType
  // ---------------------------------------------------------------------------

  /**
    The classifier: trim, then the first matching rule of the cascade decides. Because the
    first four rules are pairwise disjoint, each of the first four kinds is exactly the set
    of inputs its own rule matches; `Name` is what the two name rules match once the hash,
    address and block rules have had their turn.
  */
  function DetectSearchType(input: string): (kind: SearchType)
    ensures var t := Js.Trim(input);
      && (kind == Transaction <==> IsPrefixedHex(t, 64))
      && (kind == Address <==> IsPrefixedHex(t, 40))
      && (kind == Block <==> Js.IsDigits(t))
      && (kind == Batch <==> IsBatchRef(t))
      && (kind == Name <==>
            (IsDottedName(t) || IsSimpleName(t))
            && !IsPrefixedHex(t, 64) && !IsPrefixedHex(t, 40) && !Js.IsDigits(t))
      && (kind == Unknown <==> !MatchesSomeRule(t))
  {
    var t := Js.Trim(input);
    assert IsBatchRef(t) ==> !IsPrefixedHex(t, 64) && !IsPrefixedHex(t, 40) && !Js.IsDigits(t) by {
      if IsBatchRef(t) { assert Js.LowerAscii(t[0]) == 'b'; }
    }
    assert IsBatchRef(t) ==> !IsDottedName(t) && !IsSimpleName(t) by {
      if IsBatchRef(t) { assert t[5] == ':'; }
    }
    if IsPrefixedHex(t, 64) then Transaction
    else if IsPrefixedHex(t, 40) then Address
    else if Js.IsDigits(t) then Block
    else if IsBatchRef(t) then Batch
    else if IsDottedName(t) then Name
    else if IsSimpleName(t) then Name
    else Unknown
  }

  // ---------------------------------------------------------------------------
  // Properties of the classifier
  // ---------------------------------------------------------------------------

  /** Exactly `0x` and 64 hexadecimal digits: a transaction hash. */
  lemma TxHashIsTransaction(s: string)
    requires IsPrefixedHex(s, 64)
    ensures DetectSearchType(s) == Transaction
  {
    Js.TrimUnpadded(s);
  }

  /** Exactly `0x` and 40 hexadecimal digits: an address. */
  lemma AddressIsAddress(s: string)
    requires IsPrefixedHex(s, 40)
    ensures DetectSearchType(s) == Address
  {
    Js.TrimUnpadded(s);
  }

  /**
    A string of digits is a block number and never a name, although the simple-name rule
    matches it too: the block rule comes first.
  */
  lemma DigitsAreBlock(s: string)
    requires Js.IsDigits(s)
    ensures IsSimpleName(s)
    ensures DetectSearchType(s) == Block && DetectSearchType(s) != Name
    ensures Js.Trim(s) == s
  {
    assert Js.Unpadded(s) by {
      assert Js.IsAsciiDigit(s[0]) && Js.IsAsciiDigit(s[|s| - 1]);
    }
    Js.TrimUnpadded(s);
  }

  /** `batch:` in any letter case followed by digits is a batch reference. */
  lemma BatchRefIsBatch(prefix: string, digits: string)
    requires |prefix| == |BatchPrefix|
    requires forall i :: 0 <= i < |prefix| ==> Js.LowerAscii(prefix[i]) == BatchPrefix[i]
    requires Js.IsDigits(digits)
    ensures DetectSearchType(prefix + digits) == Batch
  {
    var s := prefix + digits;
    assert s[|BatchPrefix|..] == digits;
    assert Js.LowerAscii(s[0]) == 'b';
    assert s[|s| - 1] == digits[|digits| - 1];
    Js.TrimUnpadded(s);
  }

  /**
    A colon survives no name rule: a trimmed query holding a colon is a batch reference or
    nothing (so `batch:abc` is unknown).
  */
  lemma ColonIsBatchOrUnknown(s: string, i: nat)
    requires i < |Js.Trim(s)| && Js.Trim(s)[i] == ':'
    ensures DetectSearchType(s) == Batch || DetectSearchType(s) == Unknown
  {
    var t := Js.Trim(s);
    assert !IsDottedName(t) && !IsSimpleName(t) by {
      assert !IsNameChar(t[i]) && !IsAlphanumeric(t[i]);
    }
    assert !Js.IsDigits(t) by {
      assert !Js.IsAsciiDigit(t[i]);
    }
    assert !IsPrefixedHex(t, 64) && !IsPrefixedHex(t, 40) by {
      assert !Js.IsHexDigit(t[i]) && t[i] != '0' && t[i] != 'x';
    }
  }

  /**
    A trimmed query holding any character outside `[a-zA-Z0-9.:-]` (white space inside the
    query among them) matches no rule.
  */
  lemma ForeignCharIsUnknown(s: string, i: nat)
    requires i < |Js.Trim(s)|
    requires !IsNameChar(Js.Trim(s)[i]) && Js.Trim(s)[i] != ':'
    ensures DetectSearchType(s) == Unknown
  {
    var t := Js.Trim(s);
    assert !IsDottedName(t) && !IsSimpleName(t) by {
      assert !IsAlphanumeric(t[i]);
    }
    assert !Js.IsDigits(t) by {
      assert !Js.IsAsciiDigit(t[i]);
    }
    assert !IsPrefixedHex(t, 64) && !IsPrefixedHex(t, 40) by {
      assert !Js.IsHexDigit(t[i]) && t[i] != '0' && t[i] != 'x';
    }
    assert !IsBatchRef(t) by {
      if i < |BatchPrefix| {
        assert Js.LowerAscii(t[i]) != BatchPrefix[i];
      } else {
        assert t[|BatchPrefix|..][i - |BatchPrefix|] == t[i];
      }
    }
  }

  /** The empty query, and a query of white space only, is unknown. */
  lemma BlankIsUnknown(s: string)
    requires Js.AllWhitespace(s)
    ensures DetectSearchType(s) == Unknown
  {
    assert s + [] + [] == s;
    Js.TrimUnique(s, [], []);
  }

  /**
    `0x` followed by hexadecimal digits of any length other than 40 or 64 is taken for a
    name: the `x` makes it alphanumeric but not a number.
  */
  lemma OtherHexLengthIsName(h: string)
    requires forall i :: 0 <= i < |h| ==> Js.IsHexDigit(h[i])
    requires |h| != 40 && |h| != 64
    ensures DetectSearchType("0x" + h) == Name
  {
    var s := "0x" + h;
    assert forall i :: 2 <= i < |s| ==> s[i] == h[i - 2];
    assert IsSimpleName(s);
    assert !Js.IsAsciiDigit(s[1]);
    if h != [] { assert s[|s| - 1] == h[|h| - 1]; }
    Js.TrimUnpadded(s);
  }

  /** A string over `[a-zA-Z0-9.-]` that contains a dot is a name. */
  lemma DottedNameIsName(s: string)
    requires IsDottedName(s)
    ensures DetectSearchType(s) == Name
  {
    var k :| 0 <= k < |s| && s[k] == '.';
    assert !Js.IsDigits(s) by {
      assert !Js.IsAsciiDigit(s[k]);
    }
    assert !IsPrefixedHex(s, 64) && !IsPrefixedHex(s, 40) by {
      if k >= 2 { assert !Js.IsHexDigit(s[k]); }
    }
    NameCharsUnpadded(s);
    Js.TrimUnpadded(s);
  }

  /** A string of name characters has no white space at either end. */
  lemma NameCharsUnpadded(s: string)
    requires forall i :: 0 <= i < |s| ==> IsNameChar(s[i])
    ensures Js.Unpadded(s)
  {
    if s != [] {
      assert IsNameChar(s[0]) && IsNameChar(s[|s| - 1]);
    }
  }

  /**
    An alphanumeric string that starts with a letter is a name: the letter rules out the
    hash, address and block rules.
  */
  lemma LetterFirstIsName(s: string)
    requires IsSimpleName(s)
    requires 'a' <= s[0] <= 'z' || 'A' <= s[0] <= 'Z'
    ensures DetectSearchType(s) == Name
  {
    assert !Js.IsDigits(s) by { assert !Js.IsAsciiDigit(s[0]); }
    assert !IsPrefixedHex(s, 64) && !IsPrefixedHex(s, 40) by { assert s[0] != '0'; }
    assert forall i :: 0 <= i < |s| ==> IsNameChar(s[i]);
    NameCharsUnpadded(s);
    Js.TrimUnpadded(s);
  }

  /** The classifier trims its input, so it ignores any white space around the query. */
  lemma ClassifyIgnoresPadding(w1: string, s: string, w2: string)
    requires Js.AllWhitespace(w1) && Js.AllWhitespace(w2)
    ensures DetectSearchType(w1 + s + w2) == DetectSearchType(s)
  {
    Js.TrimPadding(w1, s, w2);
  }

  /** Classifying the trimmed query, as `handleSearch` does, is classifying the query. */
  lemma ClassifyTrimmed(s: string)
    ensures DetectSearchType(Js.Trim(s)) == DetectSearchType(s)
  {
    Js.TrimIdempotent(s);
  }

  /** `batch:123` is a batch reference. */
  lemma LowerBatchExample()
    ensures DetectSearchType("batch:123") == Batch
  {
    BatchRefIsBatch("batch:", "123");
    assert "batch:" + "123" == "batch:123";
  }

  /** `BATCH:123` is a batch reference: the prefix is matched in any letter case. */
  lemma UpperBatchExample()
    ensures DetectSearchType("BATCH:123") == Batch
  {
    BatchRefIsBatch("BATCH:", "123");
    assert "BATCH:" + "123" == "BATCH:123";
  }

  /** `batch:abc` is unknown: not a batch reference, and the colon defeats both name rules. */
  lemma BatchWithoutDigitsExample()
    ensures DetectSearchType("batch:abc") == Unknown
  {
    var s := "batch:abc";
    assert Js.Unpadded(s) by { assert s[0] == 'b' && s[|s| - 1] == 'c'; }
    Js.TrimUnpadded(s);
    ColonIsBatchOrUnknown(s, 5);
    assert s[6..][0] == 'a';
  }

  /** `alice.l2` is a name. */
  lemma DottedNameExample()
    ensures DetectSearchType("alice.l2") == Name
  {
    assert "alice.l2"[5] == '.';
    DottedNameIsName("alice.l2");
  }

  /** `alice123` is a name. */
  lemma SimpleNameExample()
    ensures DetectSearchType("alice123") == Name
  {
    var s := "alice123";
    assert IsSimpleName(s);
    LetterFirstIsName(s);
  }

  /** `alice 123` is unknown: the inner space matches no rule. */
  lemma InnerSpaceExample()
    ensures DetectSearchType("alice 123") == Unknown
  {
    var s := "alice 123";
    assert Js.Unpadded(s) by { assert s[0] == 'a' && s[|s| - 1] == '3'; }
    Js.TrimUnpadded(s);
    ForeignCharIsUnknown(s, 5);
  }

  // ---------------------------------------------------------------------------
  // The route handleSearch navigates to
  // ---------------------------------------------------------------------------

  /** The route prefix of each navigable kind. */
  function RoutePrefix(kind: SearchType): (prefix: string)
    requires kind != Unknown
  {
    match kind
    case Address => "/address/"
    case Transaction => "/tx/"
    case Block => "/block/"
    case Batch => "/batch/"
    case Name => "/name/"
  }

  /**
    The navigation `handleSearch` performs for a query, if any: nothing for a blank query or
    an unknown one, otherwise the kind's route prefix followed by the trimmed query.
  */
  function Route(query: string): (r: Option<string>)
    ensures Js.Trim(query) == [] ==> r.None?
    ensures r.None? <==> DetectSearchType(query) == Unknown
    ensures r.Some? ==> r.value == RoutePrefix(DetectSearchType(query)) + Js.Trim(query)
  {
    var q := Js.Trim(query);
    if q == [] then None
    else
      ClassifyTrimmed(query);
      match DetectSearchType(q)
      case Address => Some("/address/" + q)
      case Transaction => Some("/tx/" + q)
      case Block => Some("/block/" + q)
      case Batch => Some("/batch/" + q)
      case Name => Some("/name/" + q)
      case Unknown => None
  }

  /**
    A route names its kind and its query: two queries with the same route have the same
    kind and the same trimmed text, and the text after the prefix classifies as that kind.
  */
  lemma RouteDeterminesQuery(a: string, b: string)
    requires Route(a).Some? && Route(a) == Route(b)
    ensures DetectSearchType(a) == DetectSearchType(b)
    ensures Js.Trim(a) == Js.Trim(b)
    ensures DetectSearchType(Js.Trim(a)) == DetectSearchType(a)
  {
    RoutePrefixesDistinct(DetectSearchType(a), Js.Trim(a), DetectSearchType(b), Js.Trim(b));
    Js.TrimIdempotent(a);
  }

  /** No route prefix is a prefix of another, so a route splits back into kind and query. */
  lemma RoutePrefixesDistinct(k1: SearchType, t1: string, k2: SearchType, t2: string)
    requires k1 != Unknown && k2 != Unknown
    requires RoutePrefix(k1) + t1 == RoutePrefix(k2) + t2
    ensures k1 == k2 && t1 == t2
  {
    var p1, p2 := RoutePrefix(k1), RoutePrefix(k2);
    var r := p1 + t1;
    assert r[1] == p1[1] && r[2] == p1[2];
    assert r[1] == p2[1] && r[2] == p2[2];
    assert k1 == k2;
    assert t1 == r[|p1|..] == t2;
  }

  // ---------------------------------------------------------------------------
  // The search form's state
  // ---------------------------------------------------------------------------

  const EmptyQueryMessage: string := "Please enter a search term"
  const InvalidFormatMessage: string :=
    "Invalid search format. Try an address, transaction hash, block number, or name."

  /** What submitting the form does: navigate, or raise an error toast. */
  datatype Effect = Navigate(route: string) | ErrorToast(message: string)

  /** The search form: the text typed so far and whether a search is in progress. */
  class SearchForm {
    var query: string
    var isLoading: bool

    constructor ()
      ensures query == "" && !isLoading
    {
      query := "";
      isLoading := false;
    }

    /** Typing, picking a suggestion, or clearing (`setQuery('')`). */
    method SetQuery(text: string)
      modifies this
      ensures query == text && isLoading == old(isLoading)
    {
      query := text;
    }

    /** The submit button is disabled while loading or while the query is blank. */
    predicate SubmitDisabled(): (disabled: bool)
      reads this
      ensures disabled <==> isLoading || Js.AllWhitespace(query)
    {
      Js.BlankTrimsEmpty(query);
      isLoading || Js.Trim(query) == []
    }

    /**
      Submitting: a blank query raises the empty-query toast and leaves the loading flag
      alone; any other query sets the flag, navigates to its route (or raises the
      invalid-format toast for an unknown kind) and clears the flag again.
    */
    method HandleSearch() returns (effect: Effect)
      modifies this
      ensures query == old(query)
      ensures Js.Trim(query) == [] ==> effect == ErrorToast(EmptyQueryMessage) && isLoading == old(isLoading)
      ensures Js.Trim(query) != [] ==> !isLoading
      ensures Route(query).Some? ==> effect == Navigate(Route(query).value)
      ensures Js.Trim(query) != [] && Route(query).None? ==> effect == ErrorToast(InvalidFormatMessage)
    {
      var q := Js.Trim(query);
      if q == [] {
        effect := ErrorToast(EmptyQueryMessage);
        return;
      }
      isLoading := true;
      match Route(query) {
        case Some(route) => effect := Navigate(route);
        case None => effect := ErrorToast(InvalidFormatMessage);
      }
      isLoading := false;
    }
  }

  /**
    A submission the button allows never raises the empty-query toast: it navigates or
    reports an invalid format, and the form is no longer loading afterwards.
  */
  method SubmitWhenEnabled(form: SearchForm) returns (effect: Effect)
    requires !form.SubmitDisabled()
    modifies form
    ensures effect != ErrorToast(EmptyQueryMessage)
    ensures effect.Navigate? || effect == ErrorToast(InvalidFormatMessage)
    ensures !form.isLoading && form.query == old(form.query)
  {
    effect := form.HandleSearch();
  }
}
