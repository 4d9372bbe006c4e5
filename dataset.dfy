/** The dependency list the page ships with, and what the filter finds in it for the
    queries "delhi" and "generators". Texts longer than a few words are written as
    concatenations of pieces that break after a space, so that facts about a text can be
    established piece by piece; each concatenation spells the text exactly. */
module Dataset {
  import opened Text
  import opened Sequences
  import opened QuickFilter

  const CoalFired: Record := Record(
    "Coal-fired " + "Power",
    "Large " + "existing " + "plants " + "supply many " + "cities.",
    ["High CO₂", "Air " + "pollution", "Slow to " + "restart"],
    ["NTPC Dadri " + "→ Delhi NCR " + "(India)",
     "Kendal → " + "Johannesburg " + "(South " + "Africa)",
     "Yuhuan → " + "urban " + "Zhejiang " + "(China)",
     "Sual → " + "Metro " + "Manila " + "(Philippines)"])

  const DieselGenerators: Record := Record(
    "Oil/Diesel " + "Generators " + "(Backup)",
    "Used during " + "outages for " + "shops, " + "schools, " + "homes.",
    ["Expensive " + "fuel", "Noise", "Local air " + "pollution"],
    ["Karachi " + "(Pakistan)",
     "Lagos " + "(Nigeria)",
     "Manila " + "(Philippines)",
     "Dhaka " + "(Bangladesh)",
     "Jakarta " + "(Indonesia)"])

  const OilGridPlants: Record := Record(
    "Oil-based " + "Grid Plants",
    "Cities with " + "limited " + "gas/coal " + "rely on " + "heavy fuel " + "oil/diesel " + "plants.",
    ["High " + "cost/kWh", "CO₂ & " + "SOx/NOx", "Price " + "volatility"],
    ["Port Louis " + "(Mauritius)",
     "Suva (Fiji)",
     "Honiara " + "(Solomon " + "Islands)",
     "Malé " + "(Maldives)",
     "Jazan/Hail " + "(Saudi " + "Arabia)"])

  const GasPlants: Record := Record(
    "Natural Gas " + "Plants",
    "Often used " + "for " + "baseload/peaking.",
    ["Still " + "fossil fuel", "Methane " + "leakage", "Fuel price " + "swings"],
    ["Common in " + "many urban " + "grids " + "worldwide"])

  /** The list in display order. */
  const NonRenewables: seq<Record> := [CoalFired, DieselGenerators, OilGridPlants, GasPlants]

  lemma NoDelhiInCoalFiredNamePiece0()
    ensures 'h' !in Lower("Coal-fired ")
  {
  }

  lemma NoDelhiInCoalFiredNamePiece1()
    ensures 'h' !in Lower("Power")
  {
  }

  lemma NoDelhiInCoalFiredNameCore()
    ensures 'h' !in Lower(CoalFired.name)
  {
    LowerAppend("Coal-fired ", "Power");
    NoDelhiInCoalFiredNamePiece0();
    NoDelhiInCoalFiredNamePiece1();
  }

  lemma NoDelhiInCoalFiredName()
    ensures !Mentions(CoalFired.name, "delhi")
  {
    NoDelhiInCoalFiredNameCore();
    assert "delhi"[3] == 'h';
    NotContainsByChar(Lower(CoalFired.name), "delhi", 3);
  }

  lemma NoDelhiInCoalFiredWhyCommonPiece0()
    ensures 'd' !in Lower("Large ")
  {
  }

  lemma NoDelhiInCoalFiredWhyCommonPiece1()
    ensures 'd' !in Lower("existing ")
  {
  }

  lemma NoDelhiInCoalFiredWhyCommonPiece2()
    ensures 'd' !in Lower("plants ")
  {
  }

  lemma NoDelhiInCoalFiredWhyCommonPiece3()
    ensures 'd' !in Lower("supply many ")
  {
  }

  lemma NoDelhiInCoalFiredWhyCommonPiece4()
    ensures 'd' !in Lower("cities.")
  {
  }

  lemma NoDelhiInCoalFiredWhyCommonCore()
    ensures 'd' !in Lower(CoalFired.whyCommon)
  {
    LowerAppend("Large ", "existing ");
    LowerAppend("Large " + "existing ", "plants ");
    LowerAppend("Large " + "existing " + "plants ", "supply many ");
    LowerAppend("Large " + "existing " + "plants " + "supply many ", "cities.");
    NoDelhiInCoalFiredWhyCommonPiece0();
    NoDelhiInCoalFiredWhyCommonPiece1();
    NoDelhiInCoalFiredWhyCommonPiece2();
    NoDelhiInCoalFiredWhyCommonPiece3();
    NoDelhiInCoalFiredWhyCommonPiece4();
  }

  lemma NoDelhiInCoalFiredWhyCommon()
    ensures !Mentions(CoalFired.whyCommon, "delhi")
  {
    NoDelhiInCoalFiredWhyCommonCore();
    assert "delhi"[0] == 'd';
    NotContainsByChar(Lower(CoalFired.whyCommon), "delhi", 0);
  }

  lemma NoDelhiInCoalFiredIssue0Piece()
    ensures 'd' !in Lower("High CO₂")
  {
  }

  lemma NoDelhiInCoalFiredIssue0Core()
    ensures 'd' !in Lower(CoalFired.issues[0])
  {
    NoDelhiInCoalFiredIssue0Piece();
  }

  lemma NoDelhiInCoalFiredIssue0()
    ensures !Mentions(CoalFired.issues[0], "delhi")
  {
    NoDelhiInCoalFiredIssue0Core();
    assert "delhi"[0] == 'd';
    NotContainsByChar(Lower(CoalFired.issues[0]), "delhi", 0);
  }

  lemma NoDelhiInCoalFiredIssue1Piece0()
    ensures 'd' !in Lower("Air ")
  {
  }

  lemma NoDelhiInCoalFiredIssue1Piece1()
    ensures 'd' !in Lower("pollution")
  {
  }

  lemma NoDelhiInCoalFiredIssue1Core()
    ensures 'd' !in Lower(CoalFired.issues[1])
  {
    LowerAppend("Air ", "pollution");
    NoDelhiInCoalFiredIssue1Piece0();
    NoDelhiInCoalFiredIssue1Piece1();
  }

  lemma NoDelhiInCoalFiredIssue1()
    ensures !Mentions(CoalFired.issues[1], "delhi")
  {
    NoDelhiInCoalFiredIssue1Core();
    assert "delhi"[0] == 'd';
    NotContainsByChar(Lower(CoalFired.issues[1]), "delhi", 0);
  }

  lemma NoDelhiInCoalFiredIssue2Piece0()
    ensures 'd' !in Lower("Slow to ")
  {
  }

  lemma NoDelhiInCoalFiredIssue2Piece1()
    ensures 'd' !in Lower("restart")
  {
  }

  lemma NoDelhiInCoalFiredIssue2Core()
    ensures 'd' !in Lower(CoalFired.issues[2])
  {
    LowerAppend("Slow to ", "restart");
    NoDelhiInCoalFiredIssue2Piece0();
    NoDelhiInCoalFiredIssue2Piece1();
  }

  lemma NoDelhiInCoalFiredIssue2()
    ensures !Mentions(CoalFired.issues[2], "delhi")
  {
    NoDelhiInCoalFiredIssue2Core();
    assert "delhi"[0] == 'd';
    NotContainsByChar(Lower(CoalFired.issues[2]), "delhi", 0);
  }

  lemma DelhiInCoalFiredExample0Piece1()
    ensures OccursAt(Lower("→ Delhi NCR "), "delhi", 2)
  {
  }

  lemma DelhiInCoalFiredExample0()
    ensures Mentions(CoalFired.examples[0], "delhi")
  {
    LowerAppend("NTPC Dadri ", "→ Delhi NCR ");
    LowerAppend("NTPC Dadri " + "→ Delhi NCR ", "(India)");
    DelhiInCoalFiredExample0Piece1();
    ContainsInAppend(Lower("NTPC Dadri "), Lower("→ Delhi NCR "), "delhi");
    ContainsInAppend(Lower("NTPC Dadri ") + Lower("→ Delhi NCR "), Lower("(India)"), "delhi");
  }

  lemma NoDelhiInCoalFiredExample1Piece0()
    ensures PairFree(Lower("Kendal → "), 'd', 'e')
  {
  }

  lemma NoDelhiInCoalFiredExample1Piece1()
    ensures 'd' !in Lower("Johannesburg ")
  {
  }

  lemma NoDelhiInCoalFiredExample1Piece2()
    ensures 'd' !in Lower("(South ")
  {
  }

  lemma NoDelhiInCoalFiredExample1Piece3()
    ensures 'd' !in Lower("Africa)")
  {
  }

  lemma NoDelhiInCoalFiredExample1Core()
    ensures PairFree(Lower(CoalFired.examples[1]), 'd', 'e')
  {
    LowerAppend("Kendal → ", "Johannesburg ");
    LowerAppend("Kendal → " + "Johannesburg ", "(South ");
    LowerAppend("Kendal → " + "Johannesburg " + "(South ", "Africa)");
    NoDelhiInCoalFiredExample1Piece0();
    NoDelhiInCoalFiredExample1Piece1();
    PairFreeByMissing(Lower("Johannesburg "), 'd', 'e');
    NoDelhiInCoalFiredExample1Piece2();
    PairFreeByMissing(Lower("(South "), 'd', 'e');
    NoDelhiInCoalFiredExample1Piece3();
    PairFreeByMissing(Lower("Africa)"), 'd', 'e');
    PairFreeAppend(Lower("Kendal → "), Lower("Johannesburg "), 'd', 'e');
    PairFreeAppend(Lower("Kendal → ") + Lower("Johannesburg "), Lower("(South "), 'd', 'e');
    PairFreeAppend(Lower("Kendal → ") + Lower("Johannesburg ") + Lower("(South "), Lower("Africa)"), 'd', 'e');
  }

  lemma NoDelhiInCoalFiredExample1()
    ensures !Mentions(CoalFired.examples[1], "delhi")
  {
    NoDelhiInCoalFiredExample1Core();
    assert "delhi"[0] == 'd' && "delhi"[1] == 'e';
    NotContainsByPair(Lower(CoalFired.examples[1]), "delhi", 0);
  }

  lemma NoDelhiInCoalFiredExample2Piece0()
    ensures 'd' !in Lower("Yuhuan → ")
  {
  }

  lemma NoDelhiInCoalFiredExample2Piece1()
    ensures 'd' !in Lower("urban ")
  {
  }

  lemma NoDelhiInCoalFiredExample2Piece2()
    ensures 'd' !in Lower("Zhejiang ")
  {
  }

  lemma NoDelhiInCoalFiredExample2Piece3()
    ensures 'd' !in Lower("(China)")
  {
  }

  lemma NoDelhiInCoalFiredExample2Core()
    ensures 'd' !in Lower(CoalFired.examples[2])
  {
    LowerAppend("Yuhuan → ", "urban ");
    LowerAppend("Yuhuan → " + "urban ", "Zhejiang ");
    LowerAppend("Yuhuan → " + "urban " + "Zhejiang ", "(China)");
    NoDelhiInCoalFiredExample2Piece0();
    NoDelhiInCoalFiredExample2Piece1();
    NoDelhiInCoalFiredExample2Piece2();
    NoDelhiInCoalFiredExample2Piece3();
  }

  lemma NoDelhiInCoalFiredExample2()
    ensures !Mentions(CoalFired.examples[2], "delhi")
  {
    NoDelhiInCoalFiredExample2Core();
    assert "delhi"[0] == 'd';
    NotContainsByChar(Lower(CoalFired.examples[2]), "delhi", 0);
  }

  lemma NoDelhiInCoalFiredExample3Piece0()
    ensures 'd' !in Lower("Sual → ")
  {
  }

  lemma NoDelhiInCoalFiredExample3Piece1()
    ensures 'd' !in Lower("Metro ")
  {
  }

  lemma NoDelhiInCoalFiredExample3Piece2()
    ensures 'd' !in Lower("Manila ")
  {
  }

  lemma NoDelhiInCoalFiredExample3Piece3()
    ensures 'd' !in Lower("(Philippines)")
  {
  }

  lemma NoDelhiInCoalFiredExample3Core()
    ensures 'd' !in Lower(CoalFired.examples[3])
  {
    LowerAppend("Sual → ", "Metro ");
    LowerAppend("Sual → " + "Metro ", "Manila ");
    LowerAppend("Sual → " + "Metro " + "Manila ", "(Philippines)");
    NoDelhiInCoalFiredExample3Piece0();
    NoDelhiInCoalFiredExample3Piece1();
    NoDelhiInCoalFiredExample3Piece2();
    NoDelhiInCoalFiredExample3Piece3();
  }

  lemma NoDelhiInCoalFiredExample3()
    ensures !Mentions(CoalFired.examples[3], "delhi")
  {
    NoDelhiInCoalFiredExample3Core();
    assert "delhi"[0] == 'd';
    NotContainsByChar(Lower(CoalFired.examples[3]), "delhi", 0);
  }

  /** The examples of `CoalFired` that the query "delhi" keeps. */
  lemma CoalFiredExamplesUnderDelhi()
    ensures Narrow(CoalFired, "delhi").examples == [CoalFired.examples[0]]
  {
    DelhiInCoalFiredExample0();
    NoDelhiInCoalFiredExample1();
    NoDelhiInCoalFiredExample2();
    NoDelhiInCoalFiredExample3();
    var p, s := ExampleTest("delhi"), CoalFired.examples;
    FilterByFrom(p, s, 0);
    FilterByFrom(p, s, 1);
    FilterByFrom(p, s, 2);
    FilterByFrom(p, s, 3);
    assert s[0..] == s && s[4..] == [];
  }

  /** The copy of `CoalFired` that the query "delhi" makes, and whether it is kept. */
  lemma CoalFiredUnderDelhi()
    ensures Narrow(CoalFired, "delhi").examples == [CoalFired.examples[0]]
    ensures Retained(Narrow(CoalFired, "delhi"), "delhi")
  {
    NoDelhiInCoalFiredName();
    NoDelhiInCoalFiredWhyCommon();
    NoDelhiInCoalFiredIssue0();
    NoDelhiInCoalFiredIssue1();
    NoDelhiInCoalFiredIssue2();
    CoalFiredExamplesUnderDelhi();
  }

  lemma NoDelhiInDieselGeneratorsNamePiece0()
    ensures 'h' !in Lower("Oil/Diesel ")
  {
  }

  lemma NoDelhiInDieselGeneratorsNamePiece1()
    ensures 'h' !in Lower("Generators ")
  {
  }

  lemma NoDelhiInDieselGeneratorsNamePiece2()
    ensures 'h' !in Lower("(Backup)")
  {
  }

  lemma NoDelhiInDieselGeneratorsNameCore()
    ensures 'h' !in Lower(DieselGenerators.name)
  {
    LowerAppend("Oil/Diesel ", "Generators ");
    LowerAppend("Oil/Diesel " + "Generators ", "(Backup)");
    NoDelhiInDieselGeneratorsNamePiece0();
    NoDelhiInDieselGeneratorsNamePiece1();
    NoDelhiInDieselGeneratorsNamePiece2();
  }

  lemma NoDelhiInDieselGeneratorsName()
    ensures !Mentions(DieselGenerators.name, "delhi")
  {
    NoDelhiInDieselGeneratorsNameCore();
    assert "delhi"[3] == 'h';
    NotContainsByChar(Lower(DieselGenerators.name), "delhi", 3);
  }

  lemma NoDelhiInDieselGeneratorsWhyCommonPiece0()
    ensures 'l' !in Lower("Used during ")
  {
  }

  lemma NoDelhiInDieselGeneratorsWhyCommonPiece1()
    ensures 'l' !in Lower("outages for ")
  {
  }

  lemma NoDelhiInDieselGeneratorsWhyCommonPiece2()
    ensures 'e' !in Lower("shops, ")
  {
  }

  lemma NoDelhiInDieselGeneratorsWhyCommonPiece3()
    ensures 'e' !in Lower("schools, ")
  {
  }

  lemma NoDelhiInDieselGeneratorsWhyCommonPiece4()
    ensures 'l' !in Lower("homes.")
  {
  }

  lemma NoDelhiInDieselGeneratorsWhyCommonCore()
    ensures PairFree(Lower(DieselGenerators.whyCommon), 'e', 'l')
  {
    LowerAppend("Used during ", "outages for ");
    LowerAppend("Used during " + "outages for ", "shops, ");
    LowerAppend("Used during " + "outages for " + "shops, ", "schools, ");
    LowerAppend("Used during " + "outages for " + "shops, " + "schools, ", "homes.");
    NoDelhiInDieselGeneratorsWhyCommonPiece0();
    PairFreeByMissing(Lower("Used during "), 'e', 'l');
    NoDelhiInDieselGeneratorsWhyCommonPiece1();
    PairFreeByMissing(Lower("outages for "), 'e', 'l');
    NoDelhiInDieselGeneratorsWhyCommonPiece2();
    PairFreeByMissing(Lower("shops, "), 'e', 'l');
    NoDelhiInDieselGeneratorsWhyCommonPiece3();
    PairFreeByMissing(Lower("schools, "), 'e', 'l');
    NoDelhiInDieselGeneratorsWhyCommonPiece4();
    PairFreeByMissing(Lower("homes."), 'e', 'l');
    PairFreeAppend(Lower("Used during "), Lower("outages for "), 'e', 'l');
    PairFreeAppend(Lower("Used during ") + Lower("outages for "), Lower("shops, "), 'e', 'l');
    PairFreeAppend(Lower("Used during ") + Lower("outages for ") + Lower("shops, "), Lower("schools, "), 'e', 'l');
    PairFreeAppend(Lower("Used during ") + Lower("outages for ") + Lower("shops, ") + Lower("schools, "), Lower("homes."), 'e', 'l');
  }

  lemma NoDelhiInDieselGeneratorsWhyCommon()
    ensures !Mentions(DieselGenerators.whyCommon, "delhi")
  {
    NoDelhiInDieselGeneratorsWhyCommonCore();
    assert "delhi"[1] == 'e' && "delhi"[2] == 'l';
    NotContainsByPair(Lower(DieselGenerators.whyCommon), "delhi", 1);
  }

  lemma NoDelhiInDieselGeneratorsIssue0Piece0()
    ensures 'd' !in Lower("Expensive ")
  {
  }

  lemma NoDelhiInDieselGeneratorsIssue0Piece1()
    ensures 'd' !in Lower("fuel")
  {
  }

  lemma NoDelhiInDieselGeneratorsIssue0Core()
    ensures 'd' !in Lower(DieselGenerators.issues[0])
  {
    LowerAppend("Expensive ", "fuel");
    NoDelhiInDieselGeneratorsIssue0Piece0();
    NoDelhiInDieselGeneratorsIssue0Piece1();
  }

  lemma NoDelhiInDieselGeneratorsIssue0()
    ensures !Mentions(DieselGenerators.issues[0], "delhi")
  {
    NoDelhiInDieselGeneratorsIssue0Core();
    assert "delhi"[0] == 'd';
    NotContainsByChar(Lower(DieselGenerators.issues[0]), "delhi", 0);
  }

  lemma NoDelhiInDieselGeneratorsIssue1Piece()
    ensures 'd' !in Lower("Noise")
  {
  }

  lemma NoDelhiInDieselGeneratorsIssue1Core()
    ensures 'd' !in Lower(DieselGenerators.issues[1])
  {
    NoDelhiInDieselGeneratorsIssue1Piece();
  }

  lemma NoDelhiInDieselGeneratorsIssue1()
    ensures !Mentions(DieselGenerators.issues[1], "delhi")
  {
    NoDelhiInDieselGeneratorsIssue1Core();
    assert "delhi"[0] == 'd';
    NotContainsByChar(Lower(DieselGenerators.issues[1]), "delhi", 0);
  }

  lemma NoDelhiInDieselGeneratorsIssue2Piece0()
    ensures 'd' !in Lower("Local air ")
  {
  }

  lemma NoDelhiInDieselGeneratorsIssue2Piece1()
    ensures 'd' !in Lower("pollution")
  {
  }

  lemma NoDelhiInDieselGeneratorsIssue2Core()
    ensures 'd' !in Lower(DieselGenerators.issues[2])
  {
    LowerAppend("Local air ", "pollution");
    NoDelhiInDieselGeneratorsIssue2Piece0();
    NoDelhiInDieselGeneratorsIssue2Piece1();
  }

  lemma NoDelhiInDieselGeneratorsIssue2()
    ensures !Mentions(DieselGenerators.issues[2], "delhi")
  {
    NoDelhiInDieselGeneratorsIssue2Core();
    assert "delhi"[0] == 'd';
    NotContainsByChar(Lower(DieselGenerators.issues[2]), "delhi", 0);
  }

  lemma NoDelhiInDieselGeneratorsExample0Piece0()
    ensures 'd' !in Lower("Karachi ")
  {
  }

  lemma NoDelhiInDieselGeneratorsExample0Piece1()
    ensures 'd' !in Lower("(Pakistan)")
  {
  }

  lemma NoDelhiInDieselGeneratorsExample0Core()
    ensures 'd' !in Lower(DieselGenerators.examples[0])
  {
    LowerAppend("Karachi ", "(Pakistan)");
    NoDelhiInDieselGeneratorsExample0Piece0();
    NoDelhiInDieselGeneratorsExample0Piece1();
  }

  lemma NoDelhiInDieselGeneratorsExample0()
    ensures !Mentions(DieselGenerators.examples[0], "delhi")
  {
    NoDelhiInDieselGeneratorsExample0Core();
    assert "delhi"[0] == 'd';
    NotContainsByChar(Lower(DieselGenerators.examples[0]), "delhi", 0);
  }

  lemma NoDelhiInDieselGeneratorsExample1Piece0()
    ensures 'd' !in Lower("Lagos ")
  {
  }

  lemma NoDelhiInDieselGeneratorsExample1Piece1()
    ensures 'd' !in Lower("(Nigeria)")
  {
  }

  lemma NoDelhiInDieselGeneratorsExample1Core()
    ensures 'd' !in Lower(DieselGenerators.examples[1])
  {
    LowerAppend("Lagos ", "(Nigeria)");
    NoDelhiInDieselGeneratorsExample1Piece0();
    NoDelhiInDieselGeneratorsExample1Piece1();
  }

  lemma NoDelhiInDieselGeneratorsExample1()
    ensures !Mentions(DieselGenerators.examples[1], "delhi")
  {
    NoDelhiInDieselGeneratorsExample1Core();
    assert "delhi"[0] == 'd';
    NotContainsByChar(Lower(DieselGenerators.examples[1]), "delhi", 0);
  }

  lemma NoDelhiInDieselGeneratorsExample2Piece0()
    ensures 'd' !in Lower("Manila ")
  {
  }

  lemma NoDelhiInDieselGeneratorsExample2Piece1()
    ensures 'd' !in Lower("(Philippines)")
  {
  }

  lemma NoDelhiInDieselGeneratorsExample2Core()
    ensures 'd' !in Lower(DieselGenerators.examples[2])
  {
    LowerAppend("Manila ", "(Philippines)");
    NoDelhiInDieselGeneratorsExample2Piece0();
    NoDelhiInDieselGeneratorsExample2Piece1();
  }

  lemma NoDelhiInDieselGeneratorsExample2()
    ensures !Mentions(DieselGenerators.examples[2], "delhi")
  {
    NoDelhiInDieselGeneratorsExample2Core();
    assert "delhi"[0] == 'd';
    NotContainsByChar(Lower(DieselGenerators.examples[2]), "delhi", 0);
  }

  lemma NoDelhiInDieselGeneratorsExample3Piece0()
    ensures 'i' !in Lower("Dhaka ")
  {
  }

  lemma NoDelhiInDieselGeneratorsExample3Piece1()
    ensures 'i' !in Lower("(Bangladesh)")
  {
  }

  lemma NoDelhiInDieselGeneratorsExample3Core()
    ensures 'i' !in Lower(DieselGenerators.examples[3])
  {
    LowerAppend("Dhaka ", "(Bangladesh)");
    NoDelhiInDieselGeneratorsExample3Piece0();
    NoDelhiInDieselGeneratorsExample3Piece1();
  }

  lemma NoDelhiInDieselGeneratorsExample3()
    ensures !Mentions(DieselGenerators.examples[3], "delhi")
  {
    NoDelhiInDieselGeneratorsExample3Core();
    assert "delhi"[4] == 'i';
    NotContainsByChar(Lower(DieselGenerators.examples[3]), "delhi", 4);
  }

  lemma NoDelhiInDieselGeneratorsExample4Piece0()
    ensures 'l' !in Lower("Jakarta ")
  {
  }

  lemma NoDelhiInDieselGeneratorsExample4Piece1()
    ensures 'l' !in Lower("(Indonesia)")
  {
  }

  lemma NoDelhiInDieselGeneratorsExample4Core()
    ensures 'l' !in Lower(DieselGenerators.examples[4])
  {
    LowerAppend("Jakarta ", "(Indonesia)");
    NoDelhiInDieselGeneratorsExample4Piece0();
    NoDelhiInDieselGeneratorsExample4Piece1();
  }

  lemma NoDelhiInDieselGeneratorsExample4()
    ensures !Mentions(DieselGenerators.examples[4], "delhi")
  {
    NoDelhiInDieselGeneratorsExample4Core();
    assert "delhi"[2] == 'l';
    NotContainsByChar(Lower(DieselGenerators.examples[4]), "delhi", 2);
  }

  /** The examples of `DieselGenerators` that the query "delhi" keeps. */
  lemma DieselGeneratorsExamplesUnderDelhi()
    ensures Narrow(DieselGenerators, "delhi").examples == []
  {
    NoDelhiInDieselGeneratorsExample0();
    NoDelhiInDieselGeneratorsExample1();
    NoDelhiInDieselGeneratorsExample2();
    NoDelhiInDieselGeneratorsExample3();
    NoDelhiInDieselGeneratorsExample4();
    var p, s := ExampleTest("delhi"), DieselGenerators.examples;
    FilterByFrom(p, s, 0);
    FilterByFrom(p, s, 1);
    FilterByFrom(p, s, 2);
    FilterByFrom(p, s, 3);
    FilterByFrom(p, s, 4);
    assert s[0..] == s && s[5..] == [];
  }

  /** The copy of `DieselGenerators` that the query "delhi" makes, and whether it is kept. */
  lemma DieselGeneratorsUnderDelhi()
    ensures Narrow(DieselGenerators, "delhi").examples == []
    ensures !Retained(Narrow(DieselGenerators, "delhi"), "delhi")
  {
    NoDelhiInDieselGeneratorsName();
    NoDelhiInDieselGeneratorsWhyCommon();
    NoDelhiInDieselGeneratorsIssue0();
    NoDelhiInDieselGeneratorsIssue1();
    NoDelhiInDieselGeneratorsIssue2();
    DieselGeneratorsExamplesUnderDelhi();
  }

  lemma NoDelhiInOilGridPlantsNamePiece0()
    ensures 'h' !in Lower("Oil-based ")
  {
  }

  lemma NoDelhiInOilGridPlantsNamePiece1()
    ensures 'h' !in Lower("Grid Plants")
  {
  }

  lemma NoDelhiInOilGridPlantsNameCore()
    ensures 'h' !in Lower(OilGridPlants.name)
  {
    LowerAppend("Oil-based ", "Grid Plants");
    NoDelhiInOilGridPlantsNamePiece0();
    NoDelhiInOilGridPlantsNamePiece1();
  }

  lemma NoDelhiInOilGridPlantsName()
    ensures !Mentions(OilGridPlants.name, "delhi")
  {
    NoDelhiInOilGridPlantsNameCore();
    assert "delhi"[3] == 'h';
    NotContainsByChar(Lower(OilGridPlants.name), "delhi", 3);
  }

  lemma NoDelhiInOilGridPlantsWhyCommonPiece0()
    ensures 'd' !in Lower("Cities with ")
  {
  }

  lemma NoDelhiInOilGridPlantsWhyCommonPiece1()
    ensures PairFree(Lower("limited "), 'd', 'e')
  {
  }

  lemma NoDelhiInOilGridPlantsWhyCommonPiece2()
    ensures 'd' !in Lower("gas/coal ")
  {
  }

  lemma NoDelhiInOilGridPlantsWhyCommonPiece3()
    ensures 'd' !in Lower("rely on ")
  {
  }

  lemma NoDelhiInOilGridPlantsWhyCommonPiece4()
    ensures 'd' !in Lower("heavy fuel ")
  {
  }

  lemma NoDelhiInOilGridPlantsWhyCommonPiece5()
    ensures PairFree(Lower("oil/diesel "), 'd', 'e')
  {
  }

  lemma NoDelhiInOilGridPlantsWhyCommonPiece6()
    ensures 'd' !in Lower("plants.")
  {
  }

  lemma NoDelhiInOilGridPlantsWhyCommonCore()
    ensures PairFree(Lower(OilGridPlants.whyCommon), 'd', 'e')
  {
    LowerAppend("Cities with ", "limited ");
    LowerAppend("Cities with " + "limited ", "gas/coal ");
    LowerAppend("Cities with " + "limited " + "gas/coal ", "rely on ");
    LowerAppend("Cities with " + "limited " + "gas/coal " + "rely on ", "heavy fuel ");
    LowerAppend("Cities with " + "limited " + "gas/coal " + "rely on " + "heavy fuel ", "oil/diesel ");
    LowerAppend("Cities with " + "limited " + "gas/coal " + "rely on " + "heavy fuel " + "oil/diesel ", "plants.");
    NoDelhiInOilGridPlantsWhyCommonPiece0();
    PairFreeByMissing(Lower("Cities with "), 'd', 'e');
    NoDelhiInOilGridPlantsWhyCommonPiece1();
    NoDelhiInOilGridPlantsWhyCommonPiece2();
    PairFreeByMissing(Lower("gas/coal "), 'd', 'e');
    NoDelhiInOilGridPlantsWhyCommonPiece3();
    PairFreeByMissing(Lower("rely on "), 'd', 'e');
    NoDelhiInOilGridPlantsWhyCommonPiece4();
    PairFreeByMissing(Lower("heavy fuel "), 'd', 'e');
    NoDelhiInOilGridPlantsWhyCommonPiece5();
    NoDelhiInOilGridPlantsWhyCommonPiece6();
    PairFreeByMissing(Lower("plants."), 'd', 'e');
    PairFreeAppend(Lower("Cities with "), Lower("limited "), 'd', 'e');
    PairFreeAppend(Lower("Cities with ") + Lower("limited "), Lower("gas/coal "), 'd', 'e');
    PairFreeAppend(Lower("Cities with ") + Lower("limited ") + Lower("gas/coal "), Lower("rely on "), 'd', 'e');
    PairFreeAppend(Lower("Cities with ") + Lower("limited ") + Lower("gas/coal ") + Lower("rely on "), Lower("heavy fuel "), 'd', 'e');
    PairFreeAppend(Lower("Cities with ") + Lower("limited ") + Lower("gas/coal ") + Lower("rely on ") + Lower("heavy fuel "), Lower("oil/diesel "), 'd', 'e');
    PairFreeAppend(Lower("Cities with ") + Lower("limited ") + Lower("gas/coal ") + Lower("rely on ") + Lower("heavy fuel ") + Lower("oil/diesel "), Lower("plants."), 'd', 'e');
  }

  lemma NoDelhiInOilGridPlantsWhyCommon()
    ensures !Mentions(OilGridPlants.whyCommon, "delhi")
  {
    NoDelhiInOilGridPlantsWhyCommonCore();
    assert "delhi"[0] == 'd' && "delhi"[1] == 'e';
    NotContainsByPair(Lower(OilGridPlants.whyCommon), "delhi", 0);
  }

  lemma NoDelhiInOilGridPlantsIssue0Piece0()
    ensures 'd' !in Lower("High ")
  {
  }

  lemma NoDelhiInOilGridPlantsIssue0Piece1()
    ensures 'd' !in Lower("cost/kWh")
  {
  }

  lemma NoDelhiInOilGridPlantsIssue0Core()
    ensures 'd' !in Lower(OilGridPlants.issues[0])
  {
    LowerAppend("High ", "cost/kWh");
    NoDelhiInOilGridPlantsIssue0Piece0();
    NoDelhiInOilGridPlantsIssue0Piece1();
  }

  lemma NoDelhiInOilGridPlantsIssue0()
    ensures !Mentions(OilGridPlants.issues[0], "delhi")
  {
    NoDelhiInOilGridPlantsIssue0Core();
    assert "delhi"[0] == 'd';
    NotContainsByChar(Lower(OilGridPlants.issues[0]), "delhi", 0);
  }

  lemma NoDelhiInOilGridPlantsIssue1Piece0()
    ensures 'd' !in Lower("CO₂ & ")
  {
  }

  lemma NoDelhiInOilGridPlantsIssue1Piece1()
    ensures 'd' !in Lower("SOx/NOx")
  {
  }

  lemma NoDelhiInOilGridPlantsIssue1Core()
    ensures 'd' !in Lower(OilGridPlants.issues[1])
  {
    LowerAppend("CO₂ & ", "SOx/NOx");
    NoDelhiInOilGridPlantsIssue1Piece0();
    NoDelhiInOilGridPlantsIssue1Piece1();
  }

  lemma NoDelhiInOilGridPlantsIssue1()
    ensures !Mentions(OilGridPlants.issues[1], "delhi")
  {
    NoDelhiInOilGridPlantsIssue1Core();
    assert "delhi"[0] == 'd';
    NotContainsByChar(Lower(OilGridPlants.issues[1]), "delhi", 0);
  }

  lemma NoDelhiInOilGridPlantsIssue2Piece0()
    ensures 'd' !in Lower("Price ")
  {
  }

  lemma NoDelhiInOilGridPlantsIssue2Piece1()
    ensures 'd' !in Lower("volatility")
  {
  }

  lemma NoDelhiInOilGridPlantsIssue2Core()
    ensures 'd' !in Lower(OilGridPlants.issues[2])
  {
    LowerAppend("Price ", "volatility");
    NoDelhiInOilGridPlantsIssue2Piece0();
    NoDelhiInOilGridPlantsIssue2Piece1();
  }

  lemma NoDelhiInOilGridPlantsIssue2()
    ensures !Mentions(OilGridPlants.issues[2], "delhi")
  {
    NoDelhiInOilGridPlantsIssue2Core();
    assert "delhi"[0] == 'd';
    NotContainsByChar(Lower(OilGridPlants.issues[2]), "delhi", 0);
  }

  lemma NoDelhiInOilGridPlantsExample0Piece0()
    ensures 'd' !in Lower("Port Louis ")
  {
  }

  lemma NoDelhiInOilGridPlantsExample0Piece1()
    ensures 'd' !in Lower("(Mauritius)")
  {
  }

  lemma NoDelhiInOilGridPlantsExample0Core()
    ensures 'd' !in Lower(OilGridPlants.examples[0])
  {
    LowerAppend("Port Louis ", "(Mauritius)");
    NoDelhiInOilGridPlantsExample0Piece0();
    NoDelhiInOilGridPlantsExample0Piece1();
  }

  lemma NoDelhiInOilGridPlantsExample0()
    ensures !Mentions(OilGridPlants.examples[0], "delhi")
  {
    NoDelhiInOilGridPlantsExample0Core();
    assert "delhi"[0] == 'd';
    NotContainsByChar(Lower(OilGridPlants.examples[0]), "delhi", 0);
  }

  lemma NoDelhiInOilGridPlantsExample1Piece()
    ensures 'd' !in Lower("Suva (Fiji)")
  {
  }

  lemma NoDelhiInOilGridPlantsExample1Core()
    ensures 'd' !in Lower(OilGridPlants.examples[1])
  {
    NoDelhiInOilGridPlantsExample1Piece();
  }

  lemma NoDelhiInOilGridPlantsExample1()
    ensures !Mentions(OilGridPlants.examples[1], "delhi")
  {
    NoDelhiInOilGridPlantsExample1Core();
    assert "delhi"[0] == 'd';
    NotContainsByChar(Lower(OilGridPlants.examples[1]), "delhi", 0);
  }

  lemma NoDelhiInOilGridPlantsExample2Piece0()
    ensures 'e' !in Lower("Honiara ")
  {
  }

  lemma NoDelhiInOilGridPlantsExample2Piece1()
    ensures 'e' !in Lower("(Solomon ")
  {
  }

  lemma NoDelhiInOilGridPlantsExample2Piece2()
    ensures 'e' !in Lower("Islands)")
  {
  }

  lemma NoDelhiInOilGridPlantsExample2Core()
    ensures 'e' !in Lower(OilGridPlants.examples[2])
  {
    LowerAppend("Honiara ", "(Solomon ");
    LowerAppend("Honiara " + "(Solomon ", "Islands)");
    NoDelhiInOilGridPlantsExample2Piece0();
    NoDelhiInOilGridPlantsExample2Piece1();
    NoDelhiInOilGridPlantsExample2Piece2();
  }

  lemma NoDelhiInOilGridPlantsExample2()
    ensures !Mentions(OilGridPlants.examples[2], "delhi")
  {
    NoDelhiInOilGridPlantsExample2Core();
    assert "delhi"[1] == 'e';
    NotContainsByChar(Lower(OilGridPlants.examples[2]), "delhi", 1);
  }

  lemma NoDelhiInOilGridPlantsExample3Piece0()
    ensures 'h' !in Lower("Malé ")
  {
  }

  lemma NoDelhiInOilGridPlantsExample3Piece1()
    ensures 'h' !in Lower("(Maldives)")
  {
  }

  lemma NoDelhiInOilGridPlantsExample3Core()
    ensures 'h' !in Lower(OilGridPlants.examples[3])
  {
    LowerAppend("Malé ", "(Maldives)");
    NoDelhiInOilGridPlantsExample3Piece0();
    NoDelhiInOilGridPlantsExample3Piece1();
  }

  lemma NoDelhiInOilGridPlantsExample3()
    ensures !Mentions(OilGridPlants.examples[3], "delhi")
  {
    NoDelhiInOilGridPlantsExample3Core();
    assert "delhi"[3] == 'h';
    NotContainsByChar(Lower(OilGridPlants.examples[3]), "delhi", 3);
  }

  lemma NoDelhiInOilGridPlantsExample4Piece0()
    ensures 'e' !in Lower("Jazan/Hail ")
  {
  }

  lemma NoDelhiInOilGridPlantsExample4Piece1()
    ensures 'e' !in Lower("(Saudi ")
  {
  }

  lemma NoDelhiInOilGridPlantsExample4Piece2()
    ensures 'e' !in Lower("Arabia)")
  {
  }

  lemma NoDelhiInOilGridPlantsExample4Core()
    ensures 'e' !in Lower(OilGridPlants.examples[4])
  {
    LowerAppend("Jazan/Hail ", "(Saudi ");
    LowerAppend("Jazan/Hail " + "(Saudi ", "Arabia)");
    NoDelhiInOilGridPlantsExample4Piece0();
    NoDelhiInOilGridPlantsExample4Piece1();
    NoDelhiInOilGridPlantsExample4Piece2();
  }

  lemma NoDelhiInOilGridPlantsExample4()
    ensures !Mentions(OilGridPlants.examples[4], "delhi")
  {
    NoDelhiInOilGridPlantsExample4Core();
    assert "delhi"[1] == 'e';
    NotContainsByChar(Lower(OilGridPlants.examples[4]), "delhi", 1);
  }

  /** The examples of `OilGridPlants` that the query "delhi" keeps. */
  lemma OilGridPlantsExamplesUnderDelhi()
    ensures Narrow(OilGridPlants, "delhi").examples == []
  {
    NoDelhiInOilGridPlantsExample0();
    NoDelhiInOilGridPlantsExample1();
    NoDelhiInOilGridPlantsExample2();
    NoDelhiInOilGridPlantsExample3();
    NoDelhiInOilGridPlantsExample4();
    var p, s := ExampleTest("delhi"), OilGridPlants.examples;
    FilterByFrom(p, s, 0);
    FilterByFrom(p, s, 1);
    FilterByFrom(p, s, 2);
    FilterByFrom(p, s, 3);
    FilterByFrom(p, s, 4);
    assert s[0..] == s && s[5..] == [];
  }

  /** The copy of `OilGridPlants` that the query "delhi" makes, and whether it is kept. */
  lemma OilGridPlantsUnderDelhi()
    ensures Narrow(OilGridPlants, "delhi").examples == []
    ensures !Retained(Narrow(OilGridPlants, "delhi"), "delhi")
  {
    NoDelhiInOilGridPlantsName();
    NoDelhiInOilGridPlantsWhyCommon();
    NoDelhiInOilGridPlantsIssue0();
    NoDelhiInOilGridPlantsIssue1();
    NoDelhiInOilGridPlantsIssue2();
    OilGridPlantsExamplesUnderDelhi();
  }

  lemma NoDelhiInGasPlantsNamePiece0()
    ensures 'd' !in Lower("Natural Gas ")
  {
  }

  lemma NoDelhiInGasPlantsNamePiece1()
    ensures 'd' !in Lower("Plants")
  {
  }

  lemma NoDelhiInGasPlantsNameCore()
    ensures 'd' !in Lower(GasPlants.name)
  {
    LowerAppend("Natural Gas ", "Plants");
    NoDelhiInGasPlantsNamePiece0();
    NoDelhiInGasPlantsNamePiece1();
  }

  lemma NoDelhiInGasPlantsName()
    ensures !Mentions(GasPlants.name, "delhi")
  {
    NoDelhiInGasPlantsNameCore();
    assert "delhi"[0] == 'd';
    NotContainsByChar(Lower(GasPlants.name), "delhi", 0);
  }

  lemma NoDelhiInGasPlantsWhyCommonPiece0()
    ensures 'h' !in Lower("Often used ")
  {
  }

  lemma NoDelhiInGasPlantsWhyCommonPiece1()
    ensures 'h' !in Lower("for ")
  {
  }

  lemma NoDelhiInGasPlantsWhyCommonPiece2()
    ensures 'h' !in Lower("baseload/peaking.")
  {
  }

  lemma NoDelhiInGasPlantsWhyCommonCore()
    ensures 'h' !in Lower(GasPlants.whyCommon)
  {
    LowerAppend("Often used ", "for ");
    LowerAppend("Often used " + "for ", "baseload/peaking.");
    NoDelhiInGasPlantsWhyCommonPiece0();
    NoDelhiInGasPlantsWhyCommonPiece1();
    NoDelhiInGasPlantsWhyCommonPiece2();
  }

  lemma NoDelhiInGasPlantsWhyCommon()
    ensures !Mentions(GasPlants.whyCommon, "delhi")
  {
    NoDelhiInGasPlantsWhyCommonCore();
    assert "delhi"[3] == 'h';
    NotContainsByChar(Lower(GasPlants.whyCommon), "delhi", 3);
  }

  lemma NoDelhiInGasPlantsIssue0Piece0()
    ensures 'd' !in Lower("Still ")
  {
  }

  lemma NoDelhiInGasPlantsIssue0Piece1()
    ensures 'd' !in Lower("fossil fuel")
  {
  }

  lemma NoDelhiInGasPlantsIssue0Core()
    ensures 'd' !in Lower(GasPlants.issues[0])
  {
    LowerAppend("Still ", "fossil fuel");
    NoDelhiInGasPlantsIssue0Piece0();
    NoDelhiInGasPlantsIssue0Piece1();
  }

  lemma NoDelhiInGasPlantsIssue0()
    ensures !Mentions(GasPlants.issues[0], "delhi")
  {
    NoDelhiInGasPlantsIssue0Core();
    assert "delhi"[0] == 'd';
    NotContainsByChar(Lower(GasPlants.issues[0]), "delhi", 0);
  }

  lemma NoDelhiInGasPlantsIssue1Piece0()
    ensures 'd' !in Lower("Methane ")
  {
  }

  lemma NoDelhiInGasPlantsIssue1Piece1()
    ensures 'd' !in Lower("leakage")
  {
  }

  lemma NoDelhiInGasPlantsIssue1Core()
    ensures 'd' !in Lower(GasPlants.issues[1])
  {
    LowerAppend("Methane ", "leakage");
    NoDelhiInGasPlantsIssue1Piece0();
    NoDelhiInGasPlantsIssue1Piece1();
  }

  lemma NoDelhiInGasPlantsIssue1()
    ensures !Mentions(GasPlants.issues[1], "delhi")
  {
    NoDelhiInGasPlantsIssue1Core();
    assert "delhi"[0] == 'd';
    NotContainsByChar(Lower(GasPlants.issues[1]), "delhi", 0);
  }

  lemma NoDelhiInGasPlantsIssue2Piece0()
    ensures 'd' !in Lower("Fuel price ")
  {
  }

  lemma NoDelhiInGasPlantsIssue2Piece1()
    ensures 'd' !in Lower("swings")
  {
  }

  lemma NoDelhiInGasPlantsIssue2Core()
    ensures 'd' !in Lower(GasPlants.issues[2])
  {
    LowerAppend("Fuel price ", "swings");
    NoDelhiInGasPlantsIssue2Piece0();
    NoDelhiInGasPlantsIssue2Piece1();
  }

  lemma NoDelhiInGasPlantsIssue2()
    ensures !Mentions(GasPlants.issues[2], "delhi")
  {
    NoDelhiInGasPlantsIssue2Core();
    assert "delhi"[0] == 'd';
    NotContainsByChar(Lower(GasPlants.issues[2]), "delhi", 0);
  }

  lemma NoDelhiInGasPlantsExample0Piece0()
    ensures 'h' !in Lower("Common in ")
  {
  }

  lemma NoDelhiInGasPlantsExample0Piece1()
    ensures 'h' !in Lower("many urban ")
  {
  }

  lemma NoDelhiInGasPlantsExample0Piece2()
    ensures 'h' !in Lower("grids ")
  {
  }

  lemma NoDelhiInGasPlantsExample0Piece3()
    ensures 'h' !in Lower("worldwide")
  {
  }

  lemma NoDelhiInGasPlantsExample0Core()
    ensures 'h' !in Lower(GasPlants.examples[0])
  {
    LowerAppend("Common in ", "many urban ");
    LowerAppend("Common in " + "many urban ", "grids ");
    LowerAppend("Common in " + "many urban " + "grids ", "worldwide");
    NoDelhiInGasPlantsExample0Piece0();
    NoDelhiInGasPlantsExample0Piece1();
    NoDelhiInGasPlantsExample0Piece2();
    NoDelhiInGasPlantsExample0Piece3();
  }

  lemma NoDelhiInGasPlantsExample0()
    ensures !Mentions(GasPlants.examples[0], "delhi")
  {
    NoDelhiInGasPlantsExample0Core();
    assert "delhi"[3] == 'h';
    NotContainsByChar(Lower(GasPlants.examples[0]), "delhi", 3);
  }

  /** The examples of `GasPlants` that the query "delhi" keeps. */
  lemma GasPlantsExamplesUnderDelhi()
    ensures Narrow(GasPlants, "delhi").examples == []
  {
    NoDelhiInGasPlantsExample0();
    var p, s := ExampleTest("delhi"), GasPlants.examples;
    FilterByFrom(p, s, 0);
    assert s[0..] == s && s[1..] == [];
  }

  /** The copy of `GasPlants` that the query "delhi" makes, and whether it is kept. */
  lemma GasPlantsUnderDelhi()
    ensures Narrow(GasPlants, "delhi").examples == []
    ensures !Retained(Narrow(GasPlants, "delhi"), "delhi")
  {
    NoDelhiInGasPlantsName();
    NoDelhiInGasPlantsWhyCommon();
    NoDelhiInGasPlantsIssue0();
    NoDelhiInGasPlantsIssue1();
    NoDelhiInGasPlantsIssue2();
    GasPlantsExamplesUnderDelhi();
  }

  /** Which narrowed records pass the test of the query "delhi". */
  lemma TestsUnderDelhi()
    ensures var ns, p := NarrowAll(NonRenewables, "delhi"), RecordTest("delhi");
      p(ns[0]) && !p(ns[1]) && !p(ns[2]) && !p(ns[3])
  {
    CoalFiredUnderDelhi();
    DieselGeneratorsUnderDelhi();
    OilGridPlantsUnderDelhi();
    GasPlantsUnderDelhi();
    var ns := NarrowAll(NonRenewables, "delhi");
    assert ns[0] == Narrow(CoalFired, "delhi");
    assert ns[1] == Narrow(DieselGenerators, "delhi");
    assert ns[2] == Narrow(OilGridPlants, "delhi");
    assert ns[3] == Narrow(GasPlants, "delhi");
  }

  /** Which records the query "delhi" keeps. */
  lemma RecordsUnderDelhi()
    ensures FilterBy(RecordTest("delhi"), NarrowAll(NonRenewables, "delhi")) == [Narrow(CoalFired, "delhi")]
  {
    TestsUnderDelhi();
    var ns, p := NarrowAll(NonRenewables, "delhi"), RecordTest("delhi");
    FilterByFour(p, ns);
    assert ns[0] == Narrow(CoalFired, "delhi");
  }

  lemma NoGeneratorsInCoalFiredNamePiece0()
    ensures 'g' !in Lower("Coal-fired ")
  {
  }

  lemma NoGeneratorsInCoalFiredNamePiece1()
    ensures 'g' !in Lower("Power")
  {
  }

  lemma NoGeneratorsInCoalFiredNameCore()
    ensures 'g' !in Lower(CoalFired.name)
  {
    LowerAppend("Coal-fired ", "Power");
    NoGeneratorsInCoalFiredNamePiece0();
    NoGeneratorsInCoalFiredNamePiece1();
  }

  lemma NoGeneratorsInCoalFiredName()
    ensures !Mentions(CoalFired.name, "generators")
  {
    NoGeneratorsInCoalFiredNameCore();
    assert "generators"[0] == 'g';
    NotContainsByChar(Lower(CoalFired.name), "generators", 0);
  }

  lemma NoGeneratorsInCoalFiredWhyCommonPiece0()
    ensures 'o' !in Lower("Large ")
  {
  }

  lemma NoGeneratorsInCoalFiredWhyCommonPiece1()
    ensures 'o' !in Lower("existing ")
  {
  }

  lemma NoGeneratorsInCoalFiredWhyCommonPiece2()
    ensures 'o' !in Lower("plants ")
  {
  }

  lemma NoGeneratorsInCoalFiredWhyCommonPiece3()
    ensures 'o' !in Lower("supply many ")
  {
  }

  lemma NoGeneratorsInCoalFiredWhyCommonPiece4()
    ensures 'o' !in Lower("cities.")
  {
  }

  lemma NoGeneratorsInCoalFiredWhyCommonCore()
    ensures 'o' !in Lower(CoalFired.whyCommon)
  {
    LowerAppend("Large ", "existing ");
    LowerAppend("Large " + "existing ", "plants ");
    LowerAppend("Large " + "existing " + "plants ", "supply many ");
    LowerAppend("Large " + "existing " + "plants " + "supply many ", "cities.");
    NoGeneratorsInCoalFiredWhyCommonPiece0();
    NoGeneratorsInCoalFiredWhyCommonPiece1();
    NoGeneratorsInCoalFiredWhyCommonPiece2();
    NoGeneratorsInCoalFiredWhyCommonPiece3();
    NoGeneratorsInCoalFiredWhyCommonPiece4();
  }

  lemma NoGeneratorsInCoalFiredWhyCommon()
    ensures !Mentions(CoalFired.whyCommon, "generators")
  {
    NoGeneratorsInCoalFiredWhyCommonCore();
    assert "generators"[7] == 'o';
    NotContainsByChar(Lower(CoalFired.whyCommon), "generators", 7);
  }

  lemma NoGeneratorsInCoalFiredIssue0Piece()
    ensures 'e' !in Lower("High CO₂")
  {
  }

  lemma NoGeneratorsInCoalFiredIssue0Core()
    ensures 'e' !in Lower(CoalFired.issues[0])
  {
    NoGeneratorsInCoalFiredIssue0Piece();
  }

  lemma NoGeneratorsInCoalFiredIssue0()
    ensures !Mentions(CoalFired.issues[0], "generators")
  {
    NoGeneratorsInCoalFiredIssue0Core();
    assert "generators"[1] == 'e';
    NotContainsByChar(Lower(CoalFired.issues[0]), "generators", 1);
  }

  lemma NoGeneratorsInCoalFiredIssue1Piece0()
    ensures 'g' !in Lower("Air ")
  {
  }

  lemma NoGeneratorsInCoalFiredIssue1Piece1()
    ensures 'g' !in Lower("pollution")
  {
  }

  lemma NoGeneratorsInCoalFiredIssue1Core()
    ensures 'g' !in Lower(CoalFired.issues[1])
  {
    LowerAppend("Air ", "pollution");
    NoGeneratorsInCoalFiredIssue1Piece0();
    NoGeneratorsInCoalFiredIssue1Piece1();
  }

  lemma NoGeneratorsInCoalFiredIssue1()
    ensures !Mentions(CoalFired.issues[1], "generators")
  {
    NoGeneratorsInCoalFiredIssue1Core();
    assert "generators"[0] == 'g';
    NotContainsByChar(Lower(CoalFired.issues[1]), "generators", 0);
  }

  lemma NoGeneratorsInCoalFiredIssue2Piece0()
    ensures 'g' !in Lower("Slow to ")
  {
  }

  lemma NoGeneratorsInCoalFiredIssue2Piece1()
    ensures 'g' !in Lower("restart")
  {
  }

  lemma NoGeneratorsInCoalFiredIssue2Core()
    ensures 'g' !in Lower(CoalFired.issues[2])
  {
    LowerAppend("Slow to ", "restart");
    NoGeneratorsInCoalFiredIssue2Piece0();
    NoGeneratorsInCoalFiredIssue2Piece1();
  }

  lemma NoGeneratorsInCoalFiredIssue2()
    ensures !Mentions(CoalFired.issues[2], "generators")
  {
    NoGeneratorsInCoalFiredIssue2Core();
    assert "generators"[0] == 'g';
    NotContainsByChar(Lower(CoalFired.issues[2]), "generators", 0);
  }

  lemma NoGeneratorsInCoalFiredExample0Piece0()
    ensures 'g' !in Lower("NTPC Dadri ")
  {
  }

  lemma NoGeneratorsInCoalFiredExample0Piece1()
    ensures 'g' !in Lower("→ Delhi NCR ")
  {
  }

  lemma NoGeneratorsInCoalFiredExample0Piece2()
    ensures 'g' !in Lower("(India)")
  {
  }

  lemma NoGeneratorsInCoalFiredExample0Core()
    ensures 'g' !in Lower(CoalFired.examples[0])
  {
    LowerAppend("NTPC Dadri ", "→ Delhi NCR ");
    LowerAppend("NTPC Dadri " + "→ Delhi NCR ", "(India)");
    NoGeneratorsInCoalFiredExample0Piece0();
    NoGeneratorsInCoalFiredExample0Piece1();
    NoGeneratorsInCoalFiredExample0Piece2();
  }

  lemma NoGeneratorsInCoalFiredExample0()
    ensures !Mentions(CoalFired.examples[0], "generators")
  {
    NoGeneratorsInCoalFiredExample0Core();
    assert "generators"[0] == 'g';
    NotContainsByChar(Lower(CoalFired.examples[0]), "generators", 0);
  }

  lemma NoGeneratorsInCoalFiredExample1Piece0()
    ensures 'g' !in Lower("Kendal → ")
  {
  }

  lemma NoGeneratorsInCoalFiredExample1Piece1()
    ensures PairFree(Lower("Johannesburg "), 'g', 'e')
  {
  }

  lemma NoGeneratorsInCoalFiredExample1Piece2()
    ensures 'g' !in Lower("(South ")
  {
  }

  lemma NoGeneratorsInCoalFiredExample1Piece3()
    ensures 'g' !in Lower("Africa)")
  {
  }

  lemma NoGeneratorsInCoalFiredExample1Core()
    ensures PairFree(Lower(CoalFired.examples[1]), 'g', 'e')
  {
    LowerAppend("Kendal → ", "Johannesburg ");
    LowerAppend("Kendal → " + "Johannesburg ", "(South ");
    LowerAppend("Kendal → " + "Johannesburg " + "(South ", "Africa)");
    NoGeneratorsInCoalFiredExample1Piece0();
    PairFreeByMissing(Lower("Kendal → "), 'g', 'e');
    NoGeneratorsInCoalFiredExample1Piece1();
    NoGeneratorsInCoalFiredExample1Piece2();
    PairFreeByMissing(Lower("(South "), 'g', 'e');
    NoGeneratorsInCoalFiredExample1Piece3();
    PairFreeByMissing(Lower("Africa)"), 'g', 'e');
    PairFreeAppend(Lower("Kendal → "), Lower("Johannesburg "), 'g', 'e');
    PairFreeAppend(Lower("Kendal → ") + Lower("Johannesburg "), Lower("(South "), 'g', 'e');
    PairFreeAppend(Lower("Kendal → ") + Lower("Johannesburg ") + Lower("(South "), Lower("Africa)"), 'g', 'e');
  }

  lemma NoGeneratorsInCoalFiredExample1()
    ensures !Mentions(CoalFired.examples[1], "generators")
  {
    NoGeneratorsInCoalFiredExample1Core();
    assert "generators"[0] == 'g' && "generators"[1] == 'e';
    NotContainsByPair(Lower(CoalFired.examples[1]), "generators", 0);
  }

  lemma NoGeneratorsInCoalFiredExample2Piece0()
    ensures 't' !in Lower("Yuhuan → ")
  {
  }

  lemma NoGeneratorsInCoalFiredExample2Piece1()
    ensures 't' !in Lower("urban ")
  {
  }

  lemma NoGeneratorsInCoalFiredExample2Piece2()
    ensures 't' !in Lower("Zhejiang ")
  {
  }

  lemma NoGeneratorsInCoalFiredExample2Piece3()
    ensures 't' !in Lower("(China)")
  {
  }

  lemma NoGeneratorsInCoalFiredExample2Core()
    ensures 't' !in Lower(CoalFired.examples[2])
  {
    LowerAppend("Yuhuan → ", "urban ");
    LowerAppend("Yuhuan → " + "urban ", "Zhejiang ");
    LowerAppend("Yuhuan → " + "urban " + "Zhejiang ", "(China)");
    NoGeneratorsInCoalFiredExample2Piece0();
    NoGeneratorsInCoalFiredExample2Piece1();
    NoGeneratorsInCoalFiredExample2Piece2();
    NoGeneratorsInCoalFiredExample2Piece3();
  }

  lemma NoGeneratorsInCoalFiredExample2()
    ensures !Mentions(CoalFired.examples[2], "generators")
  {
    NoGeneratorsInCoalFiredExample2Core();
    assert "generators"[6] == 't';
    NotContainsByChar(Lower(CoalFired.examples[2]), "generators", 6);
  }

  lemma NoGeneratorsInCoalFiredExample3Piece0()
    ensures 'g' !in Lower("Sual → ")
  {
  }

  lemma NoGeneratorsInCoalFiredExample3Piece1()
    ensures 'g' !in Lower("Metro ")
  {
  }

  lemma NoGeneratorsInCoalFiredExample3Piece2()
    ensures 'g' !in Lower("Manila ")
  {
  }

  lemma NoGeneratorsInCoalFiredExample3Piece3()
    ensures 'g' !in Lower("(Philippines)")
  {
  }

  lemma NoGeneratorsInCoalFiredExample3Core()
    ensures 'g' !in Lower(CoalFired.examples[3])
  {
    LowerAppend("Sual → ", "Metro ");
    LowerAppend("Sual → " + "Metro ", "Manila ");
    LowerAppend("Sual → " + "Metro " + "Manila ", "(Philippines)");
    NoGeneratorsInCoalFiredExample3Piece0();
    NoGeneratorsInCoalFiredExample3Piece1();
    NoGeneratorsInCoalFiredExample3Piece2();
    NoGeneratorsInCoalFiredExample3Piece3();
  }

  lemma NoGeneratorsInCoalFiredExample3()
    ensures !Mentions(CoalFired.examples[3], "generators")
  {
    NoGeneratorsInCoalFiredExample3Core();
    assert "generators"[0] == 'g';
    NotContainsByChar(Lower(CoalFired.examples[3]), "generators", 0);
  }

  /** The examples of `CoalFired` that the query "generators" keeps. */
  lemma CoalFiredExamplesUnderGenerators()
    ensures Narrow(CoalFired, "generators").examples == []
  {
    NoGeneratorsInCoalFiredExample0();
    NoGeneratorsInCoalFiredExample1();
    NoGeneratorsInCoalFiredExample2();
    NoGeneratorsInCoalFiredExample3();
    var p, s := ExampleTest("generators"), CoalFired.examples;
    FilterByFrom(p, s, 0);
    FilterByFrom(p, s, 1);
    FilterByFrom(p, s, 2);
    FilterByFrom(p, s, 3);
    assert s[0..] == s && s[4..] == [];
  }

  /** The copy of `CoalFired` that the query "generators" makes, and whether it is kept. */
  lemma CoalFiredUnderGenerators()
    ensures Narrow(CoalFired, "generators").examples == []
    ensures !Retained(Narrow(CoalFired, "generators"), "generators")
  {
    NoGeneratorsInCoalFiredName();
    NoGeneratorsInCoalFiredWhyCommon();
    NoGeneratorsInCoalFiredIssue0();
    NoGeneratorsInCoalFiredIssue1();
    NoGeneratorsInCoalFiredIssue2();
    CoalFiredExamplesUnderGenerators();
  }

  lemma GeneratorsInDieselGeneratorsNamePiece1()
    ensures OccursAt(Lower("Generators "), "generators", 0)
  {
  }

  lemma GeneratorsInDieselGeneratorsName()
    ensures Mentions(DieselGenerators.name, "generators")
  {
    LowerAppend("Oil/Diesel ", "Generators ");
    LowerAppend("Oil/Diesel " + "Generators ", "(Backup)");
    GeneratorsInDieselGeneratorsNamePiece1();
    ContainsInAppend(Lower("Oil/Diesel "), Lower("Generators "), "generators");
    ContainsInAppend(Lower("Oil/Diesel ") + Lower("Generators "), Lower("(Backup)"), "generators");
  }

  lemma NoGeneratorsInDieselGeneratorsExample0Piece0()
    ensures 'g' !in Lower("Karachi ")
  {
  }

  lemma NoGeneratorsInDieselGeneratorsExample0Piece1()
    ensures 'g' !in Lower("(Pakistan)")
  {
  }

  lemma NoGeneratorsInDieselGeneratorsExample0Core()
    ensures 'g' !in Lower(DieselGenerators.examples[0])
  {
    LowerAppend("Karachi ", "(Pakistan)");
    NoGeneratorsInDieselGeneratorsExample0Piece0();
    NoGeneratorsInDieselGeneratorsExample0Piece1();
  }

  lemma NoGeneratorsInDieselGeneratorsExample0()
    ensures !Mentions(DieselGenerators.examples[0], "generators")
  {
    NoGeneratorsInDieselGeneratorsExample0Core();
    assert "generators"[0] == 'g';
    NotContainsByChar(Lower(DieselGenerators.examples[0]), "generators", 0);
  }

  lemma NoGeneratorsInDieselGeneratorsExample1Piece0()
    ensures 't' !in Lower("Lagos ")
  {
  }

  lemma NoGeneratorsInDieselGeneratorsExample1Piece1()
    ensures 't' !in Lower("(Nigeria)")
  {
  }

  lemma NoGeneratorsInDieselGeneratorsExample1Core()
    ensures 't' !in Lower(DieselGenerators.examples[1])
  {
    LowerAppend("Lagos ", "(Nigeria)");
    NoGeneratorsInDieselGeneratorsExample1Piece0();
    NoGeneratorsInDieselGeneratorsExample1Piece1();
  }

  lemma NoGeneratorsInDieselGeneratorsExample1()
    ensures !Mentions(DieselGenerators.examples[1], "generators")
  {
    NoGeneratorsInDieselGeneratorsExample1Core();
    assert "generators"[6] == 't';
    NotContainsByChar(Lower(DieselGenerators.examples[1]), "generators", 6);
  }

  lemma NoGeneratorsInDieselGeneratorsExample2Piece0()
    ensures 'g' !in Lower("Manila ")
  {
  }

  lemma NoGeneratorsInDieselGeneratorsExample2Piece1()
    ensures 'g' !in Lower("(Philippines)")
  {
  }

  lemma NoGeneratorsInDieselGeneratorsExample2Core()
    ensures 'g' !in Lower(DieselGenerators.examples[2])
  {
    LowerAppend("Manila ", "(Philippines)");
    NoGeneratorsInDieselGeneratorsExample2Piece0();
    NoGeneratorsInDieselGeneratorsExample2Piece1();
  }

  lemma NoGeneratorsInDieselGeneratorsExample2()
    ensures !Mentions(DieselGenerators.examples[2], "generators")
  {
    NoGeneratorsInDieselGeneratorsExample2Core();
    assert "generators"[0] == 'g';
    NotContainsByChar(Lower(DieselGenerators.examples[2]), "generators", 0);
  }

  lemma NoGeneratorsInDieselGeneratorsExample3Piece0()
    ensures 'r' !in Lower("Dhaka ")
  {
  }

  lemma NoGeneratorsInDieselGeneratorsExample3Piece1()
    ensures 'r' !in Lower("(Bangladesh)")
  {
  }

  lemma NoGeneratorsInDieselGeneratorsExample3Core()
    ensures 'r' !in Lower(DieselGenerators.examples[3])
  {
    LowerAppend("Dhaka ", "(Bangladesh)");
    NoGeneratorsInDieselGeneratorsExample3Piece0();
    NoGeneratorsInDieselGeneratorsExample3Piece1();
  }

  lemma NoGeneratorsInDieselGeneratorsExample3()
    ensures !Mentions(DieselGenerators.examples[3], "generators")
  {
    NoGeneratorsInDieselGeneratorsExample3Core();
    assert "generators"[4] == 'r';
    NotContainsByChar(Lower(DieselGenerators.examples[3]), "generators", 4);
  }

  lemma NoGeneratorsInDieselGeneratorsExample4Piece0()
    ensures 'g' !in Lower("Jakarta ")
  {
  }

  lemma NoGeneratorsInDieselGeneratorsExample4Piece1()
    ensures 'g' !in Lower("(Indonesia)")
  {
  }

  lemma NoGeneratorsInDieselGeneratorsExample4Core()
    ensures 'g' !in Lower(DieselGenerators.examples[4])
  {
    LowerAppend("Jakarta ", "(Indonesia)");
    NoGeneratorsInDieselGeneratorsExample4Piece0();
    NoGeneratorsInDieselGeneratorsExample4Piece1();
  }

  lemma NoGeneratorsInDieselGeneratorsExample4()
    ensures !Mentions(DieselGenerators.examples[4], "generators")
  {
    NoGeneratorsInDieselGeneratorsExample4Core();
    assert "generators"[0] == 'g';
    NotContainsByChar(Lower(DieselGenerators.examples[4]), "generators", 0);
  }

  /** The examples of `DieselGenerators` that the query "generators" keeps. */
  lemma DieselGeneratorsExamplesUnderGenerators()
    ensures Narrow(DieselGenerators, "generators").examples == []
  {
    NoGeneratorsInDieselGeneratorsExample0();
    NoGeneratorsInDieselGeneratorsExample1();
    NoGeneratorsInDieselGeneratorsExample2();
    NoGeneratorsInDieselGeneratorsExample3();
    NoGeneratorsInDieselGeneratorsExample4();
    var p, s := ExampleTest("generators"), DieselGenerators.examples;
    FilterByFrom(p, s, 0);
    FilterByFrom(p, s, 1);
    FilterByFrom(p, s, 2);
    FilterByFrom(p, s, 3);
    FilterByFrom(p, s, 4);
    assert s[0..] == s && s[5..] == [];
  }

  /** The copy of `DieselGenerators` that the query "generators" makes, and whether it is kept. */
  lemma DieselGeneratorsUnderGenerators()
    ensures Narrow(DieselGenerators, "generators").examples == []
    ensures Retained(Narrow(DieselGenerators, "generators"), "generators")
  {
    GeneratorsInDieselGeneratorsName();
    DieselGeneratorsExamplesUnderGenerators();
  }

  lemma NoGeneratorsInOilGridPlantsNamePiece0()
    ensures 'g' !in Lower("Oil-based ")
  {
  }

  lemma NoGeneratorsInOilGridPlantsNamePiece1()
    ensures 'e' !in Lower("Grid Plants")
  {
  }

  lemma NoGeneratorsInOilGridPlantsNameCore()
    ensures PairFree(Lower(OilGridPlants.name), 'g', 'e')
  {
    LowerAppend("Oil-based ", "Grid Plants");
    NoGeneratorsInOilGridPlantsNamePiece0();
    PairFreeByMissing(Lower("Oil-based "), 'g', 'e');
    NoGeneratorsInOilGridPlantsNamePiece1();
    PairFreeByMissing(Lower("Grid Plants"), 'g', 'e');
    PairFreeAppend(Lower("Oil-based "), Lower("Grid Plants"), 'g', 'e');
  }

  lemma NoGeneratorsInOilGridPlantsName()
    ensures !Mentions(OilGridPlants.name, "generators")
  {
    NoGeneratorsInOilGridPlantsNameCore();
    assert "generators"[0] == 'g' && "generators"[1] == 'e';
    NotContainsByPair(Lower(OilGridPlants.name), "generators", 0);
  }

  lemma NoGeneratorsInOilGridPlantsWhyCommonPiece0()
    ensures 'g' !in Lower("Cities with ")
  {
  }

  lemma NoGeneratorsInOilGridPlantsWhyCommonPiece1()
    ensures 'g' !in Lower("limited ")
  {
  }

  lemma NoGeneratorsInOilGridPlantsWhyCommonPiece2()
    ensures 'e' !in Lower("gas/coal ")
  {
  }

  lemma NoGeneratorsInOilGridPlantsWhyCommonPiece3()
    ensures 'g' !in Lower("rely on ")
  {
  }

  lemma NoGeneratorsInOilGridPlantsWhyCommonPiece4()
    ensures 'g' !in Lower("heavy fuel ")
  {
  }

  lemma NoGeneratorsInOilGridPlantsWhyCommonPiece5()
    ensures 'g' !in Lower("oil/diesel ")
  {
  }

  lemma NoGeneratorsInOilGridPlantsWhyCommonPiece6()
    ensures 'g' !in Lower("plants.")
  {
  }

  lemma NoGeneratorsInOilGridPlantsWhyCommonCore()
    ensures PairFree(Lower(OilGridPlants.whyCommon), 'g', 'e')
  {
    LowerAppend("Cities with ", "limited ");
    LowerAppend("Cities with " + "limited ", "gas/coal ");
    LowerAppend("Cities with " + "limited " + "gas/coal ", "rely on ");
    LowerAppend("Cities with " + "limited " + "gas/coal " + "rely on ", "heavy fuel ");
    LowerAppend("Cities with " + "limited " + "gas/coal " + "rely on " + "heavy fuel ", "oil/diesel ");
    LowerAppend("Cities with " + "limited " + "gas/coal " + "rely on " + "heavy fuel " + "oil/diesel ", "plants.");
    NoGeneratorsInOilGridPlantsWhyCommonPiece0();
    PairFreeByMissing(Lower("Cities with "), 'g', 'e');
    NoGeneratorsInOilGridPlantsWhyCommonPiece1();
    PairFreeByMissing(Lower("limited "), 'g', 'e');
    NoGeneratorsInOilGridPlantsWhyCommonPiece2();
    PairFreeByMissing(Lower("gas/coal "), 'g', 'e');
    NoGeneratorsInOilGridPlantsWhyCommonPiece3();
    PairFreeByMissing(Lower("rely on "), 'g', 'e');
    NoGeneratorsInOilGridPlantsWhyCommonPiece4();
    PairFreeByMissing(Lower("heavy fuel "), 'g', 'e');
    NoGeneratorsInOilGridPlantsWhyCommonPiece5();
    PairFreeByMissing(Lower("oil/diesel "), 'g', 'e');
    NoGeneratorsInOilGridPlantsWhyCommonPiece6();
    PairFreeByMissing(Lower("plants."), 'g', 'e');
    PairFreeAppend(Lower("Cities with "), Lower("limited "), 'g', 'e');
    PairFreeAppend(Lower("Cities with ") + Lower("limited "), Lower("gas/coal "), 'g', 'e');
    PairFreeAppend(Lower("Cities with ") + Lower("limited ") + Lower("gas/coal "), Lower("rely on "), 'g', 'e');
    PairFreeAppend(Lower("Cities with ") + Lower("limited ") + Lower("gas/coal ") + Lower("rely on "), Lower("heavy fuel "), 'g', 'e');
    PairFreeAppend(Lower("Cities with ") + Lower("limited ") + Lower("gas/coal ") + Lower("rely on ") + Lower("heavy fuel "), Lower("oil/diesel "), 'g', 'e');
    PairFreeAppend(Lower("Cities with ") + Lower("limited ") + Lower("gas/coal ") + Lower("rely on ") + Lower("heavy fuel ") + Lower("oil/diesel "), Lower("plants."), 'g', 'e');
  }

  lemma NoGeneratorsInOilGridPlantsWhyCommon()
    ensures !Mentions(OilGridPlants.whyCommon, "generators")
  {
    NoGeneratorsInOilGridPlantsWhyCommonCore();
    assert "generators"[0] == 'g' && "generators"[1] == 'e';
    NotContainsByPair(Lower(OilGridPlants.whyCommon), "generators", 0);
  }

  lemma NoGeneratorsInOilGridPlantsIssue0Piece0()
    ensures 'e' !in Lower("High ")
  {
  }

  lemma NoGeneratorsInOilGridPlantsIssue0Piece1()
    ensures 'e' !in Lower("cost/kWh")
  {
  }

  lemma NoGeneratorsInOilGridPlantsIssue0Core()
    ensures 'e' !in Lower(OilGridPlants.issues[0])
  {
    LowerAppend("High ", "cost/kWh");
    NoGeneratorsInOilGridPlantsIssue0Piece0();
    NoGeneratorsInOilGridPlantsIssue0Piece1();
  }

  lemma NoGeneratorsInOilGridPlantsIssue0()
    ensures !Mentions(OilGridPlants.issues[0], "generators")
  {
    NoGeneratorsInOilGridPlantsIssue0Core();
    assert "generators"[1] == 'e';
    NotContainsByChar(Lower(OilGridPlants.issues[0]), "generators", 1);
  }

  lemma NoGeneratorsInOilGridPlantsIssue1Piece0()
    ensures 'g' !in Lower("CO₂ & ")
  {
  }

  lemma NoGeneratorsInOilGridPlantsIssue1Piece1()
    ensures 'g' !in Lower("SOx/NOx")
  {
  }

  lemma NoGeneratorsInOilGridPlantsIssue1Core()
    ensures 'g' !in Lower(OilGridPlants.issues[1])
  {
    LowerAppend("CO₂ & ", "SOx/NOx");
    NoGeneratorsInOilGridPlantsIssue1Piece0();
    NoGeneratorsInOilGridPlantsIssue1Piece1();
  }

  lemma NoGeneratorsInOilGridPlantsIssue1()
    ensures !Mentions(OilGridPlants.issues[1], "generators")
  {
    NoGeneratorsInOilGridPlantsIssue1Core();
    assert "generators"[0] == 'g';
    NotContainsByChar(Lower(OilGridPlants.issues[1]), "generators", 0);
  }

  lemma NoGeneratorsInOilGridPlantsIssue2Piece0()
    ensures 'g' !in Lower("Price ")
  {
  }

  lemma NoGeneratorsInOilGridPlantsIssue2Piece1()
    ensures 'g' !in Lower("volatility")
  {
  }

  lemma NoGeneratorsInOilGridPlantsIssue2Core()
    ensures 'g' !in Lower(OilGridPlants.issues[2])
  {
    LowerAppend("Price ", "volatility");
    NoGeneratorsInOilGridPlantsIssue2Piece0();
    NoGeneratorsInOilGridPlantsIssue2Piece1();
  }

  lemma NoGeneratorsInOilGridPlantsIssue2()
    ensures !Mentions(OilGridPlants.issues[2], "generators")
  {
    NoGeneratorsInOilGridPlantsIssue2Core();
    assert "generators"[0] == 'g';
    NotContainsByChar(Lower(OilGridPlants.issues[2]), "generators", 0);
  }

  lemma NoGeneratorsInOilGridPlantsExample0Piece0()
    ensures 'g' !in Lower("Port Louis ")
  {
  }

  lemma NoGeneratorsInOilGridPlantsExample0Piece1()
    ensures 'g' !in Lower("(Mauritius)")
  {
  }

  lemma NoGeneratorsInOilGridPlantsExample0Core()
    ensures 'g' !in Lower(OilGridPlants.examples[0])
  {
    LowerAppend("Port Louis ", "(Mauritius)");
    NoGeneratorsInOilGridPlantsExample0Piece0();
    NoGeneratorsInOilGridPlantsExample0Piece1();
  }

  lemma NoGeneratorsInOilGridPlantsExample0()
    ensures !Mentions(OilGridPlants.examples[0], "generators")
  {
    NoGeneratorsInOilGridPlantsExample0Core();
    assert "generators"[0] == 'g';
    NotContainsByChar(Lower(OilGridPlants.examples[0]), "generators", 0);
  }

  lemma NoGeneratorsInOilGridPlantsExample1Piece()
    ensures 'g' !in Lower("Suva (Fiji)")
  {
  }

  lemma NoGeneratorsInOilGridPlantsExample1Core()
    ensures 'g' !in Lower(OilGridPlants.examples[1])
  {
    NoGeneratorsInOilGridPlantsExample1Piece();
  }

  lemma NoGeneratorsInOilGridPlantsExample1()
    ensures !Mentions(OilGridPlants.examples[1], "generators")
  {
    NoGeneratorsInOilGridPlantsExample1Core();
    assert "generators"[0] == 'g';
    NotContainsByChar(Lower(OilGridPlants.examples[1]), "generators", 0);
  }

  lemma NoGeneratorsInOilGridPlantsExample2Piece0()
    ensures 'g' !in Lower("Honiara ")
  {
  }

  lemma NoGeneratorsInOilGridPlantsExample2Piece1()
    ensures 'g' !in Lower("(Solomon ")
  {
  }

  lemma NoGeneratorsInOilGridPlantsExample2Piece2()
    ensures 'g' !in Lower("Islands)")
  {
  }

  lemma NoGeneratorsInOilGridPlantsExample2Core()
    ensures 'g' !in Lower(OilGridPlants.examples[2])
  {
    LowerAppend("Honiara ", "(Solomon ");
    LowerAppend("Honiara " + "(Solomon ", "Islands)");
    NoGeneratorsInOilGridPlantsExample2Piece0();
    NoGeneratorsInOilGridPlantsExample2Piece1();
    NoGeneratorsInOilGridPlantsExample2Piece2();
  }

  lemma NoGeneratorsInOilGridPlantsExample2()
    ensures !Mentions(OilGridPlants.examples[2], "generators")
  {
    NoGeneratorsInOilGridPlantsExample2Core();
    assert "generators"[0] == 'g';
    NotContainsByChar(Lower(OilGridPlants.examples[2]), "generators", 0);
  }

  lemma NoGeneratorsInOilGridPlantsExample3Piece0()
    ensures 'g' !in Lower("Malé ")
  {
  }

  lemma NoGeneratorsInOilGridPlantsExample3Piece1()
    ensures 'g' !in Lower("(Maldives)")
  {
  }

  lemma NoGeneratorsInOilGridPlantsExample3Core()
    ensures 'g' !in Lower(OilGridPlants.examples[3])
  {
    LowerAppend("Malé ", "(Maldives)");
    NoGeneratorsInOilGridPlantsExample3Piece0();
    NoGeneratorsInOilGridPlantsExample3Piece1();
  }

  lemma NoGeneratorsInOilGridPlantsExample3()
    ensures !Mentions(OilGridPlants.examples[3], "generators")
  {
    NoGeneratorsInOilGridPlantsExample3Core();
    assert "generators"[0] == 'g';
    NotContainsByChar(Lower(OilGridPlants.examples[3]), "generators", 0);
  }

  lemma NoGeneratorsInOilGridPlantsExample4Piece0()
    ensures 'g' !in Lower("Jazan/Hail ")
  {
  }

  lemma NoGeneratorsInOilGridPlantsExample4Piece1()
    ensures 'g' !in Lower("(Saudi ")
  {
  }

  lemma NoGeneratorsInOilGridPlantsExample4Piece2()
    ensures 'g' !in Lower("Arabia)")
  {
  }

  lemma NoGeneratorsInOilGridPlantsExample4Core()
    ensures 'g' !in Lower(OilGridPlants.examples[4])
  {
    LowerAppend("Jazan/Hail ", "(Saudi ");
    LowerAppend("Jazan/Hail " + "(Saudi ", "Arabia)");
    NoGeneratorsInOilGridPlantsExample4Piece0();
    NoGeneratorsInOilGridPlantsExample4Piece1();
    NoGeneratorsInOilGridPlantsExample4Piece2();
  }

  lemma NoGeneratorsInOilGridPlantsExample4()
    ensures !Mentions(OilGridPlants.examples[4], "generators")
  {
    NoGeneratorsInOilGridPlantsExample4Core();
    assert "generators"[0] == 'g';
    NotContainsByChar(Lower(OilGridPlants.examples[4]), "generators", 0);
  }

  /** The examples of `OilGridPlants` that the query "generators" keeps. */
  lemma OilGridPlantsExamplesUnderGenerators()
    ensures Narrow(OilGridPlants, "generators").examples == []
  {
    NoGeneratorsInOilGridPlantsExample0();
    NoGeneratorsInOilGridPlantsExample1();
    NoGeneratorsInOilGridPlantsExample2();
    NoGeneratorsInOilGridPlantsExample3();
    NoGeneratorsInOilGridPlantsExample4();
    var p, s := ExampleTest("generators"), OilGridPlants.examples;
    FilterByFrom(p, s, 0);
    FilterByFrom(p, s, 1);
    FilterByFrom(p, s, 2);
    FilterByFrom(p, s, 3);
    FilterByFrom(p, s, 4);
    assert s[0..] == s && s[5..] == [];
  }

  /** The copy of `OilGridPlants` that the query "generators" makes, and whether it is kept. */
  lemma OilGridPlantsUnderGenerators()
    ensures Narrow(OilGridPlants, "generators").examples == []
    ensures !Retained(Narrow(OilGridPlants, "generators"), "generators")
  {
    NoGeneratorsInOilGridPlantsName();
    NoGeneratorsInOilGridPlantsWhyCommon();
    NoGeneratorsInOilGridPlantsIssue0();
    NoGeneratorsInOilGridPlantsIssue1();
    NoGeneratorsInOilGridPlantsIssue2();
    OilGridPlantsExamplesUnderGenerators();
  }

  lemma NoGeneratorsInGasPlantsNamePiece0()
    ensures 'e' !in Lower("Natural Gas ")
  {
  }

  lemma NoGeneratorsInGasPlantsNamePiece1()
    ensures 'e' !in Lower("Plants")
  {
  }

  lemma NoGeneratorsInGasPlantsNameCore()
    ensures 'e' !in Lower(GasPlants.name)
  {
    LowerAppend("Natural Gas ", "Plants");
    NoGeneratorsInGasPlantsNamePiece0();
    NoGeneratorsInGasPlantsNamePiece1();
  }

  lemma NoGeneratorsInGasPlantsName()
    ensures !Mentions(GasPlants.name, "generators")
  {
    NoGeneratorsInGasPlantsNameCore();
    assert "generators"[1] == 'e';
    NotContainsByChar(Lower(GasPlants.name), "generators", 1);
  }

  lemma NoGeneratorsInGasPlantsWhyCommonPiece0()
    ensures 'g' !in Lower("Often used ")
  {
  }

  lemma NoGeneratorsInGasPlantsWhyCommonPiece1()
    ensures 'g' !in Lower("for ")
  {
  }

  lemma NoGeneratorsInGasPlantsWhyCommonPiece2()
    ensures PairFree(Lower("baseload/peaking."), 'g', 'e')
  {
  }

  lemma NoGeneratorsInGasPlantsWhyCommonCore()
    ensures PairFree(Lower(GasPlants.whyCommon), 'g', 'e')
  {
    LowerAppend("Often used ", "for ");
    LowerAppend("Often used " + "for ", "baseload/peaking.");
    NoGeneratorsInGasPlantsWhyCommonPiece0();
    PairFreeByMissing(Lower("Often used "), 'g', 'e');
    NoGeneratorsInGasPlantsWhyCommonPiece1();
    PairFreeByMissing(Lower("for "), 'g', 'e');
    NoGeneratorsInGasPlantsWhyCommonPiece2();
    PairFreeAppend(Lower("Often used "), Lower("for "), 'g', 'e');
    PairFreeAppend(Lower("Often used ") + Lower("for "), Lower("baseload/peaking."), 'g', 'e');
  }

  lemma NoGeneratorsInGasPlantsWhyCommon()
    ensures !Mentions(GasPlants.whyCommon, "generators")
  {
    NoGeneratorsInGasPlantsWhyCommonCore();
    assert "generators"[0] == 'g' && "generators"[1] == 'e';
    NotContainsByPair(Lower(GasPlants.whyCommon), "generators", 0);
  }

  lemma NoGeneratorsInGasPlantsIssue0Piece0()
    ensures 'g' !in Lower("Still ")
  {
  }

  lemma NoGeneratorsInGasPlantsIssue0Piece1()
    ensures 'g' !in Lower("fossil fuel")
  {
  }

  lemma NoGeneratorsInGasPlantsIssue0Core()
    ensures 'g' !in Lower(GasPlants.issues[0])
  {
    LowerAppend("Still ", "fossil fuel");
    NoGeneratorsInGasPlantsIssue0Piece0();
    NoGeneratorsInGasPlantsIssue0Piece1();
  }

  lemma NoGeneratorsInGasPlantsIssue0()
    ensures !Mentions(GasPlants.issues[0], "generators")
  {
    NoGeneratorsInGasPlantsIssue0Core();
    assert "generators"[0] == 'g';
    NotContainsByChar(Lower(GasPlants.issues[0]), "generators", 0);
  }

  lemma NoGeneratorsInGasPlantsIssue1Piece0()
    ensures 'r' !in Lower("Methane ")
  {
  }

  lemma NoGeneratorsInGasPlantsIssue1Piece1()
    ensures 'r' !in Lower("leakage")
  {
  }

  lemma NoGeneratorsInGasPlantsIssue1Core()
    ensures 'r' !in Lower(GasPlants.issues[1])
  {
    LowerAppend("Methane ", "leakage");
    NoGeneratorsInGasPlantsIssue1Piece0();
    NoGeneratorsInGasPlantsIssue1Piece1();
  }

  lemma NoGeneratorsInGasPlantsIssue1()
    ensures !Mentions(GasPlants.issues[1], "generators")
  {
    NoGeneratorsInGasPlantsIssue1Core();
    assert "generators"[4] == 'r';
    NotContainsByChar(Lower(GasPlants.issues[1]), "generators", 4);
  }

  lemma NoGeneratorsInGasPlantsIssue2Piece0()
    ensures 'a' !in Lower("Fuel price ")
  {
  }

  lemma NoGeneratorsInGasPlantsIssue2Piece1()
    ensures 'a' !in Lower("swings")
  {
  }

  lemma NoGeneratorsInGasPlantsIssue2Core()
    ensures 'a' !in Lower(GasPlants.issues[2])
  {
    LowerAppend("Fuel price ", "swings");
    NoGeneratorsInGasPlantsIssue2Piece0();
    NoGeneratorsInGasPlantsIssue2Piece1();
  }

  lemma NoGeneratorsInGasPlantsIssue2()
    ensures !Mentions(GasPlants.issues[2], "generators")
  {
    NoGeneratorsInGasPlantsIssue2Core();
    assert "generators"[5] == 'a';
    NotContainsByChar(Lower(GasPlants.issues[2]), "generators", 5);
  }

  lemma NoGeneratorsInGasPlantsExample0Piece0()
    ensures 't' !in Lower("Common in ")
  {
  }

  lemma NoGeneratorsInGasPlantsExample0Piece1()
    ensures 't' !in Lower("many urban ")
  {
  }

  lemma NoGeneratorsInGasPlantsExample0Piece2()
    ensures 't' !in Lower("grids ")
  {
  }

  lemma NoGeneratorsInGasPlantsExample0Piece3()
    ensures 't' !in Lower("worldwide")
  {
  }

  lemma NoGeneratorsInGasPlantsExample0Core()
    ensures 't' !in Lower(GasPlants.examples[0])
  {
    LowerAppend("Common in ", "many urban ");
    LowerAppend("Common in " + "many urban ", "grids ");
    LowerAppend("Common in " + "many urban " + "grids ", "worldwide");
    NoGeneratorsInGasPlantsExample0Piece0();
    NoGeneratorsInGasPlantsExample0Piece1();
    NoGeneratorsInGasPlantsExample0Piece2();
    NoGeneratorsInGasPlantsExample0Piece3();
  }

  lemma NoGeneratorsInGasPlantsExample0()
    ensures !Mentions(GasPlants.examples[0], "generators")
  {
    NoGeneratorsInGasPlantsExample0Core();
    assert "generators"[6] == 't';
    NotContainsByChar(Lower(GasPlants.examples[0]), "generators", 6);
  }

  /** The examples of `GasPlants` that the query "generators" keeps. */
  lemma GasPlantsExamplesUnderGenerators()
    ensures Narrow(GasPlants, "generators").examples == []
  {
    NoGeneratorsInGasPlantsExample0();
    var p, s := ExampleTest("generators"), GasPlants.examples;
    FilterByFrom(p, s, 0);
    assert s[0..] == s && s[1..] == [];
  }

  /** The copy of `GasPlants` that the query "generators" makes, and whether it is kept. */
  lemma GasPlantsUnderGenerators()
    ensures Narrow(GasPlants, "generators").examples == []
    ensures !Retained(Narrow(GasPlants, "generators"), "generators")
  {
    NoGeneratorsInGasPlantsName();
    NoGeneratorsInGasPlantsWhyCommon();
    NoGeneratorsInGasPlantsIssue0();
    NoGeneratorsInGasPlantsIssue1();
    NoGeneratorsInGasPlantsIssue2();
    GasPlantsExamplesUnderGenerators();
  }

  /** Which narrowed records pass the test of the query "generators". */
  lemma TestsUnderGenerators()
    ensures var ns, p := NarrowAll(NonRenewables, "generators"), RecordTest("generators");
      !p(ns[0]) && p(ns[1]) && !p(ns[2]) && !p(ns[3])
  {
    CoalFiredUnderGenerators();
    DieselGeneratorsUnderGenerators();
    OilGridPlantsUnderGenerators();
    GasPlantsUnderGenerators();
    var ns := NarrowAll(NonRenewables, "generators");
    assert ns[0] == Narrow(CoalFired, "generators");
    assert ns[1] == Narrow(DieselGenerators, "generators");
    assert ns[2] == Narrow(OilGridPlants, "generators");
    assert ns[3] == Narrow(GasPlants, "generators");
  }

  /** Which records the query "generators" keeps. */
  lemma RecordsUnderGenerators()
    ensures FilterBy(RecordTest("generators"), NarrowAll(NonRenewables, "generators")) == [Narrow(DieselGenerators, "generators")]
  {
    TestsUnderGenerators();
    var ns, p := NarrowAll(NonRenewables, "generators"), RecordTest("generators");
    FilterByFour(p, ns);
    assert ns[1] == Narrow(DieselGenerators, "generators");
  }

  lemma NoSpaceCoalInCoalFiredNamePiece0()
    ensures PairFree(Lower("Coal-fired "), ' ', 'c')
  {
  }

  lemma NoSpaceCoalInCoalFiredNamePiece1()
    ensures ' ' !in Lower("Power")
  {
  }

  lemma NoSpaceCoalInCoalFiredNameCore()
    ensures PairFree(Lower(CoalFired.name), ' ', 'c')
  {
    LowerAppend("Coal-fired ", "Power");
    NoSpaceCoalInCoalFiredNamePiece0();
    NoSpaceCoalInCoalFiredNamePiece1();
    PairFreeByMissing(Lower("Power"), ' ', 'c');
    PairFreeAppend(Lower("Coal-fired "), Lower("Power"), ' ', 'c');
  }

  lemma NoSpaceCoalInCoalFiredName()
    ensures !Mentions(CoalFired.name, " coal")
  {
    NoSpaceCoalInCoalFiredNameCore();
    assert " coal"[0] == ' ' && " coal"[1] == 'c';
    NotContainsByPair(Lower(CoalFired.name), " coal", 0);
  }

  lemma CoalInCoalFiredNamePiece0()
    ensures OccursAt(Lower("Coal-fired "), "coal", 0)
  {
  }

  lemma CoalInCoalFiredName()
    ensures Mentions(CoalFired.name, "coal")
  {
    LowerAppend("Coal-fired ", "Power");
    CoalInCoalFiredNamePiece0();
    ContainsInAppend(Lower("Coal-fired "), Lower("Power"), "coal");
  }
}
