/**
 * The RabbitMQ exchange types the producer accepts, shared by both
 * generations of the RabbitMQ option set.
 */
module ExchangeTypes {
  import opened JavaLang

  const EXCHANGE_TYPES: seq<string> := ["direct", "topic", "headers", "fanout"]

  /** Text without upper-case ASCII letters, as toLowerCase() leaves it. */
  predicate IsLower(s: string)
  {
    forall k :: 0 <= k < |s| ==> !('A' <= s[k] <= 'Z')
  }

  /** The first entry from index i on that equals exType ignoring case. */
  function FirstMatch(exType: string, i: nat): (r: Option<string>)
    requires i <= |EXCHANGE_TYPES|
    ensures r.Some? ==> exists j :: i <= j < |EXCHANGE_TYPES| && r.value == EXCHANGE_TYPES[j]
    decreases |EXCHANGE_TYPES| - i
  {
    if i == |EXCHANGE_TYPES| then None
    else if EqualsIgnoreCase(exType, EXCHANGE_TYPES[i]) then Some(EXCHANGE_TYPES[i])
    else FirstMatch(exType, i + 1)
  }

  /** What checkExchangeType returns: the canonical spelling, or null. */
  function Canonical(exType: string): Option<string>
  {
    FirstMatch(exType, 0)
  }

  /** checkExchangeType: the search loop over EXCHANGE_TYPES. */
  method CheckExchangeType(exType: string) returns (r: Option<string>)
    ensures r == Canonical(exType)
  {
    for i := 0 to |EXCHANGE_TYPES|
      invariant FirstMatch(exType, i) == Canonical(exType)
    {
      if EqualsIgnoreCase(exType, EXCHANGE_TYPES[i]) {
        return Some(EXCHANGE_TYPES[i]);
      }
    }
    return None;
  }

  lemma {:induction false} FirstMatchMeaning(exType: string, i: nat)
    requires i <= |EXCHANGE_TYPES|
    ensures FirstMatch(exType, i).Some? ==> EqualsIgnoreCase(exType, FirstMatch(exType, i).value)
    ensures FirstMatch(exType, i).None? <==>
      forall j :: i <= j < |EXCHANGE_TYPES| ==> !EqualsIgnoreCase(exType, EXCHANGE_TYPES[j])
    decreases |EXCHANGE_TYPES| - i
  {
    if i < |EXCHANGE_TYPES| {
      FirstMatchMeaning(exType, i + 1);
    }
  }

  /**
   * checkExchangeType answers an entry of the list that equals the input
   * ignoring case; null exactly when none does.
   */
  lemma CanonicalMeaning(exType: string)
    ensures var r := Canonical(exType);
      && (r.Some? ==> r.value in EXCHANGE_TYPES && EqualsIgnoreCase(exType, r.value))
      && (r.None? <==> forall t :: t in EXCHANGE_TYPES ==> !EqualsIgnoreCase(exType, t))
  {
    FirstMatchMeaning(exType, 0);
    var r := Canonical(exType);
    if r.None? {
      forall t | t in EXCHANGE_TYPES ensures !EqualsIgnoreCase(exType, t) {
        var j :| 0 <= j < |EXCHANGE_TYPES| && EXCHANGE_TYPES[j] == t;
      }
    }
  }

  /** No text equals two of the four types ignoring case: the answer is the one type it matches. */
  lemma CanonicalUnique(exType: string, t: string)
    ensures Canonical(exType) == Some(t) <==> t in EXCHANGE_TYPES && EqualsIgnoreCase(exType, t)
  {
    CanonicalMeaning(exType);
    if t in EXCHANGE_TYPES && EqualsIgnoreCase(exType, t) && Canonical(exType) != Some(t) {
      var u := Canonical(exType).value;
      assert EqualsIgnoreCase(exType, u) && u != t && |u| == |t|;
      // Only "direct" and "fanout" share a length, and they differ in their first letter.
      assert {t, u} == {"direct", "fanout"};
      MatchesLowerLetter(exType[0], 'd');
      MatchesLowerLetter(exType[0], 'f');
      assert false;
    }
  }

  /**
   * Lower-case text without the four folding characters is accepted exactly
   * when it is one of the four names, and is then returned unchanged.
   */
  lemma CanonicalOfLower(exType: string)
    requires IsLower(exType)
    requires forall k :: 0 <= k < |exType| ==> !FoldsToAscii(exType[k])
    ensures Canonical(exType) == if exType in EXCHANGE_TYPES then Some(exType) else None
  {
    CanonicalMeaning(exType);
    assert ToLower(exType) == exType;
    forall t | t in EXCHANGE_TYPES ensures EqualsIgnoreCase(exType, t) <==> exType == t {
      assert forall k :: 0 <= k < |t| ==> 'a' <= t[k] <= 'z';
      EqualsIgnoreCaseLower(exType, t);
    }
    if exType in EXCHANGE_TYPES {
      CanonicalUnique(exType, exType);
    }
  }

  /** Java folds 'ı' onto 'i' and 'ſ' onto 's', so these spellings are accepted as the plain names. */
  lemma FoldedSpellings()
    ensures Canonical("d" + [DOTLESS_I] + "rect") == Some("direct")
    ensures Canonical("header" + [LONG_S]) == Some("headers")
  {
    assert EqualsIgnoreCase("d" + [DOTLESS_I] + "rect", "direct");
    CanonicalUnique("d" + [DOTLESS_I] + "rect", "direct");
    assert EqualsIgnoreCase("header" + [LONG_S], "headers");
    CanonicalUnique("header" + [LONG_S], "headers");
  }

  /** Seven characters starting with 'd' match none of the four types. */
  lemma SevenFromD(y: string)
    requires |y| == 7 && y[0] == 'd'
    ensures Canonical(y) == None
  {
    CanonicalMeaning(y);
    assert "headers"[0] == 'h';
    MatchesLowerLetter(y[0], 'h');
  }

  /**
   * 'İ' matches 'i' ignoring case, but toLowerCase() turns it into 'i' and a
   * combining dot, so once lowered the text no longer matches.
   */
  lemma LoweredDottedCapitalI()
    ensures Canonical("d" + [DOTTED_CAPITAL_I] + "rect") == Some("direct")
    ensures Canonical(ToLower("d" + [DOTTED_CAPITAL_I] + "rect")) == None
  {
    var x := "d" + [DOTTED_CAPITAL_I] + "rect";
    assert EqualsIgnoreCase(x, "direct");
    CanonicalUnique(x, "direct");
    var y := ToLower(x);
    assert y == LowerText('d') + ToLower(x[1..]);
    assert x[1..] == [DOTTED_CAPITAL_I] + "rect";
    assert ToLower(x[1..]) == LowerText(DOTTED_CAPITAL_I) + ToLower("rect");
    SevenFromD(y);
  }

  /** EXCHANGE_TYPE_LIST as its initialiser builds it. */
  method BuildTypeList() returns (list: string)
    ensures list == Join(EXCHANGE_TYPES, "/")
  {
    list := AppendJoined("", EXCHANGE_TYPES, "/");
  }

  /** The list reads "direct/topic/headers/fanout". */
  lemma TypeListText()
    ensures Join(EXCHANGE_TYPES, "/") == "direct/topic/headers/fanout"
  {
    var t := EXCHANGE_TYPES;
    assert Join(t[3..], "/") == "fanout";
    assert t[2..][1..] == t[3..];
    assert Join(t[2..], "/") == "headers/fanout";
    assert t[1..][1..] == t[2..];
    assert Join(t[1..], "/") == "topic/headers/fanout";
  }

  /** The list splits at '/' back into the four types. */
  lemma TypeListPieces()
    ensures Pieces(Join(EXCHANGE_TYPES, "/"), '/') == EXCHANGE_TYPES
  {
    PiecesJoin(EXCHANGE_TYPES, '/');
  }
}
