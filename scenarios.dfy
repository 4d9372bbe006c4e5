/** The filter on the list the page ships with: two sample queries, and the effect of
    matching with the untrimmed query. */
module Scenarios {
  import opened Text
  import opened Sequences
  import opened QuickFilter
  import opened Dataset

  /** The one example of the coal entry that mentions Delhi, spelled out. */
  lemma DadriExample()
    ensures CoalFired.examples[0] == "NTPC Dadri → Delhi NCR (India)"
  {
  }

  /** "delhi" keeps only the coal entry, narrowed to its one Delhi example. */
  lemma DelhiQuery()
    ensures Filter("delhi", NonRenewables) == [CoalFired.(examples := ["NTPC Dadri → Delhi NCR (India)"])]
  {
    assert !IsBlank("delhi") by {
      assert !IsWhitespace("delhi"[0]);
    }
    TrimEmptyIffBlank("delhi");
    assert Lower("delhi") == "delhi";
    RecordsUnderDelhi();
    CoalFiredUnderDelhi();
    DadriExample();
  }

  /** "generators" keeps only the diesel generator entry, which matches by name, with no
      example left. */
  lemma GeneratorsQuery()
    ensures Filter("generators", NonRenewables) == [DieselGenerators.(examples := [])]
  {
    assert !IsBlank("generators") by {
      assert !IsWhitespace("generators"[0]);
    }
    TrimEmptyIffBlank("generators");
    assert Lower("generators") == "generators";
    RecordsUnderGenerators();
    DieselGeneratorsUnderGenerators();
  }

  /** Trimming " coal" drops its leading space. */
  lemma TrimSpaceCoal()
    ensures Trim(" coal") == "coal"
  {
    assert IsWhitespace(' ') && !IsWhitespace('c') && !IsWhitespace('l');
    assert SkipSpace(" coal", 1) == 1;
    assert SkipSpace(" coal", 0) == 1;
    assert SkipSpaceBack(" coal", 1, 5) == 5;
    assert " coal"[1..5] == "coal";
  }

  /** Trimming only decides whether the query is blank; the match uses the raw query.
      So " coal" is not blank, yet its match text does not occur in the name of the coal
      entry, while the trimmed text "coal" does. */
  lemma RawQueryIsNotTrimmed()
    ensures !IsBlank(" coal") && Trim(" coal") == "coal"
    ensures !Mentions(CoalFired.name, Lower(" coal"))
    ensures Mentions(CoalFired.name, Lower(Trim(" coal")))
  {
    TrimSpaceCoal();
    TrimEmptyIffBlank(" coal");
    assert Lower(" coal") == " coal";
    assert Lower("coal") == "coal";
    NoSpaceCoalInCoalFiredName();
    CoalInCoalFiredName();
  }

  /** Upper-case and lower-case spellings of a query filter alike. */
  lemma UpperCaseQuery(ds: seq<Record>)
    ensures Filter("COAL", ds) == Filter("coal", ds)
  {
    assert Lower("COAL") == "coal" == Lower("coal");
    CaseInsensitive("COAL", "coal", ds);
  }
}
