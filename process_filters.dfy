/**
  Process filters (`IProcessFilter`): they decide from the `Name(Id)` field
  of a data line whether the process is one the user asked for. Both
  variants are immutable once built, so a filter is a value and `Contains`
  a pure query.
*/
module ProcessFilters {
  import opened Strings

  /**
    `AllProcesses`, or `ProcessFilter` holding the pattern its constructor
    compiled (matched with `RegexOptions.IgnoreCase`).
  */
  datatype ProcessFilter = AllProcesses | PatternFilter(pattern: string)

  /**
    The pattern the `ProcessFilter` constructor compiles from a comma-separated
    list: the pieces joined with "|". The constructor also formats each piece as
    "({0})+", but only into the delegate's own parameter, so the list it joins
    is the unwrapped one.
  */
  function CompilePattern(patterns: string): (r: string)
    ensures r == ReplaceChar(patterns, ',', '|')
  {
    JoinSplitReplaces(patterns, ',', '|');
    Join(Split(patterns, {','}), "|")
  }

  function NewProcessFilter(patterns: string): ProcessFilter
  {
    PatternFilter(CompilePattern(patterns))
  }

  /** Some alternative occurs in `name`, ignoring ASCII case. */
  predicate AnyOccurs(alternatives: seq<string>, name: string)
  {
    exists i :: 0 <= i < |alternatives| && Occurs(Lower(alternatives[i]), Lower(name))
  }

  /**
    `Contains(name)`: always true for `AllProcesses`; for a pattern, whether a
    case-insensitive regular-expression search finds one of its "|"
    alternatives in `name`, every alternative read as literal text.
  */
  predicate Contains(f: ProcessFilter, name: string)
  {
    match f
    case AllProcesses => true
    case PatternFilter(pattern) => AnyOccurs(Split(pattern, {'|'}), name)
  }

  /**
    A filter built from literal patterns accepts a name exactly when one of
    the comma-separated pieces occurs in it, ignoring case.
  */
  lemma ContainsIffSomePieceOccurs(patterns: string, name: string)
    requires NoneIn(patterns, {'|'})
    ensures Contains(NewProcessFilter(patterns), name)
        <==> AnyOccurs(Split(patterns, {','}), name)
  {
    var pieces := Split(patterns, {','});
    forall k | 0 <= k < |pieces| ensures NoneIn(pieces[k], {'|'}) {
      SplitPieceInside(patterns, {','}, k, {'|'});
    }
    SplitJoin(pieces, '|');
    assert Split(CompilePattern(patterns), {'|'}) == pieces;
    assert Contains(NewProcessFilter(patterns), name) == AnyOccurs(pieces, name);
  }

  /** Pieces of text free of some characters are free of them too. */
  lemma {:induction false} SplitPieceInside(s: string, seps: set<char>, k: nat, others: set<char>)
    requires NoneIn(s, others)
    requires k < |Split(s, seps)|
    ensures NoneIn(Split(s, seps)[k], others)
    decreases |s|
  {
    if s != [] {
      var rest := Split(s[1..], seps);
      if s[0] in seps {
        if k > 0 { SplitPieceInside(s[1..], seps, k - 1, others); }
      } else if k == 0 {
        SplitPieceInside(s[1..], seps, 0, others);
      } else {
        SplitPieceInside(s[1..], seps, k, others);
      }
    }
  }

  /** With no empty piece, the empty name is rejected. */
  lemma EmptyNameRejected(patterns: string)
    requires NoneIn(patterns, {'|'})
    requires forall i :: 0 <= i < |Split(patterns, {','})| ==> Split(patterns, {','})[i] != ""
    ensures !Contains(NewProcessFilter(patterns), "")
  {
    ContainsIffSomePieceOccurs(patterns, "");
  }

  /** An empty piece, such as the one a trailing comma leaves, makes every name accepted. */
  lemma EmptyPieceAcceptsAll(patterns: string, name: string)
    requires NoneIn(patterns, {'|'})
    requires exists i :: 0 <= i < |Split(patterns, {','})| && Split(patterns, {','})[i] == ""
    ensures Contains(NewProcessFilter(patterns), name)
  {
    var pieces := Split(patterns, {','});
    var i :| 0 <= i < |pieces| && pieces[i] == "";
    assert Occurs(Lower(pieces[i]), Lower(name));
    ContainsIffSomePieceOccurs(patterns, name);
  }

  /** `AllProcesses.Contains` is true for every argument, the empty one included. */
  lemma AllProcessesAcceptsAll(name: string)
    ensures Contains(AllProcesses, name)
  {
  }
  /** The lower-case forms of the patterns the unit tests use and meet. */
  lemma LowerSession()
    ensures Lower("session") == "session" && Lower("Session") == "session"
  {
  }

  lemma LowerUserInfo()
    ensures Lower("UserInfo") == "userinfo" && Lower("Userinfo") == "userinfo"
  {
  }

  /** Lower-casing works character by character, so it distributes over concatenation. */
  lemma LowerAppend(a: string, b: string)
    ensures Lower(a + b) == Lower(a) + Lower(b)
  {
  }

  /** A string occurs in any text that has it between two others. */
  lemma OccursInMiddle(a: string, p: string, b: string)
    ensures Occurs(p, a + p + b)
  {
    var s := a + p + b;
    assert s[|a|..] == p + b;
    assert p <= s[|a|..];
    OccursSuffix(p, s, |a|);
  }

  /** A filter built from one literal pattern looks for it in the name, ignoring case. */
  lemma OnePatternFilter(a: string, name: string)
    requires ',' !in a && '|' !in a
    ensures Contains(NewProcessFilter(a), name) <==> Occurs(Lower(a), Lower(name))
  {
    assert NoneIn(a, {','}) && NoneIn(a, {'|'});
    SplitWord(a, {','});
    ContainsIffSomePieceOccurs(a, name);
    assert Split(a, {','})[0] == a;
  }

  /** A filter built from two literal patterns around a comma looks for either in the name. */
  lemma TwoPatternFilter(a: string, b: string, name: string)
    requires ',' !in a && '|' !in a && ',' !in b && '|' !in b
    ensures Contains(NewProcessFilter(a + "," + b), name)
        <==> Occurs(Lower(a), Lower(name)) || Occurs(Lower(b), Lower(name))
  {
    assert NoneIn(a, {','}) && NoneIn(b, {','});
    SplitWord(b, {','});
    SplitAfterWord(a, ',', b, {','});
    assert "," == [','];
    var pieces := [a, b];
    assert Split(a + "," + b, {','}) == pieces;
    assert NoneIn(a + "," + b, {'|'}) by {
      var s := a + "," + b;
      forall i | 0 <= i < |s| ensures s[i] !in {'|'} {
        if i < |a| { assert s[i] == a[i]; }
        else if i > |a| { assert s[i] == b[i - |a| - 1]; }
      }
    }
    ContainsIffSomePieceOccurs(a + "," + b, name);
    if Occurs(Lower(a), Lower(name)) {
      assert Occurs(Lower(pieces[0]), Lower(name));
    }
    if Occurs(Lower(b), Lower(name)) {
      assert Occurs(Lower(pieces[1]), Lower(name));
    }
  }

  /** The filter of the first unit test looks for "session" in the lower-cased name. */
  lemma SessionFilter(name: string)
    ensures Contains(NewProcessFilter("session"), name) <==> Occurs("session", Lower(name))
  {
    OnePatternFilter("session", name);
    LowerSession();
  }

  /**
    The single-pattern case of the unit tests; the accepted names are written
    as the pieces around the pattern they contain.
  */
  lemma SinglePatternExamples()
    ensures Contains(NewProcessFilter("session"), "RBCWS" + "Session" + "")
    ensures Contains(NewProcessFilter("session"), "some " + "session" + " server")
    ensures !Contains(NewProcessFilter("session"), "Quake")
    ensures !Contains(NewProcessFilter("session"), "")
  {
    LowerSession();
    assert Contains(NewProcessFilter("session"), "RBCWS" + "Session" + "") by {
      LowerAppend("RBCWS" + "Session", "");
      LowerAppend("RBCWS", "Session");
      OccursInMiddle(Lower("RBCWS"), "session", Lower(""));
      SessionFilter("RBCWS" + "Session" + "");
    }
    assert Contains(NewProcessFilter("session"), "some " + "session" + " server") by {
      LowerAppend("some " + "session", " server");
      LowerAppend("some ", "session");
      OccursInMiddle(Lower("some "), "session", Lower(" server"));
      SessionFilter("some " + "session" + " server");
    }
    assert !Contains(NewProcessFilter("session"), "Quake") by {
      OccursNoLongerThan("session", Lower("Quake"));
      SessionFilter("Quake");
    }
    assert !Contains(NewProcessFilter("session"), "") by {
      OccursNoLongerThan("session", Lower(""));
      SessionFilter("");
    }
  }

  /**
    The filter of the second unit test, built from "Session,UserInfo" (written
    as its two pieces around the comma), looks for "session" or "userinfo" in
    the lower-cased name.
  */
  lemma SessionUserInfoFilter(name: string)
    ensures Contains(NewProcessFilter("Session" + "," + "UserInfo"), name)
        <==> Occurs("session", Lower(name)) || Occurs("userinfo", Lower(name))
  {
    TwoPatternFilter("Session", "UserInfo", name);
    LowerSession();
    LowerUserInfo();
  }

  /** The comma-separated case of the unit tests, the accepted names written as above. */
  lemma MultiplePatternExamples()
    ensures Contains(NewProcessFilter("Session" + "," + "UserInfo"), "RBCWS" + "UserInfo" + "")
    ensures Contains(NewProcessFilter("Session" + "," + "UserInfo"), "Some " + "Session" + " Server")
    ensures Contains(NewProcessFilter("Session" + "," + "UserInfo"), "Some " + "Userinfo" + " App")
    ensures !Contains(NewProcessFilter("Session" + "," + "UserInfo"), "Quake")
    ensures !Contains(NewProcessFilter("Session" + "," + "UserInfo"), "")
  {
    LowerSession();
    LowerUserInfo();
    assert Contains(NewProcessFilter("Session" + "," + "UserInfo"), "RBCWS" + "UserInfo" + "") by {
      LowerAppend("RBCWS" + "UserInfo", "");
      LowerAppend("RBCWS", "UserInfo");
      OccursInMiddle(Lower("RBCWS"), "userinfo", Lower(""));
      SessionUserInfoFilter("RBCWS" + "UserInfo" + "");
    }
    assert Contains(NewProcessFilter("Session" + "," + "UserInfo"), "Some " + "Session" + " Server") by {
      LowerAppend("Some " + "Session", " Server");
      LowerAppend("Some ", "Session");
      OccursInMiddle(Lower("Some "), "session", Lower(" Server"));
      SessionUserInfoFilter("Some " + "Session" + " Server");
    }
    assert Contains(NewProcessFilter("Session" + "," + "UserInfo"), "Some " + "Userinfo" + " App") by {
      LowerAppend("Some " + "Userinfo", " App");
      LowerAppend("Some ", "Userinfo");
      OccursInMiddle(Lower("Some "), "userinfo", Lower(" App"));
      SessionUserInfoFilter("Some " + "Userinfo" + " App");
    }
    assert !Contains(NewProcessFilter("Session" + "," + "UserInfo"), "Quake") by {
      OccursNoLongerThan("session", Lower("Quake"));
      OccursNoLongerThan("userinfo", Lower("Quake"));
      SessionUserInfoFilter("Quake");
    }
    assert !Contains(NewProcessFilter("Session" + "," + "UserInfo"), "") by {
      OccursNoLongerThan("session", Lower(""));
      OccursNoLongerThan("userinfo", Lower(""));
      SessionUserInfoFilter("");
    }
  }
}
