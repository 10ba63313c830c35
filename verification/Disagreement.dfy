/**
 A migration on which creation and Step 1 disagree. Two source failure domains are mapped; the copy for the
 first is missing, so creation runs before Step 1 reaches the second, whose destination is an aggregate known
 only by its replica count, next to a recorded copy without its base.
 */
module Disagreement {
  import opened Text
  import opened FailureDomains
  import opened Names
  import opened Sums
  import opened MachineSets
  import opened Capacity
  import opened Progress
  import opened Agreement

  const FIRST := "c-worker-d0"
  const SECOND := "c-worker-d1"
  const STRAY := "c-worker-d1-5"

  function TwoMappings(): Config {
    Config(
      "c",
      [Pair("s0", "d0"), Pair("s1", "d1")],
      [FailureDomain("s0", "old", "x", "", ""), FailureDomain("s1", "old", "y", "", "")],
      [FailureDomain("d0", "new", "x", "", ""), FailureDomain("d1", "new", "y", "", "")])
  }

  function Worker(replicas: nat, server: string, datacenter: string, copyOf: string): MachineSet {
    MachineSet(Some(replicas), Placed(Workspace(server, datacenter, "")), copyOf, false)
  }

  function Before(): Cluster {
    map[
      "a0" := Worker(1, "old", "x", ""),
      "b1" := Worker(1, "old", "y", ""),
      "b2" := Worker(1, "old", "y", ""),
      SECOND := Worker(2, "new", "y", ""),
      STRAY := Worker(1, "new", "y", "")]
  }

  function After(): Cluster {
    Before()[FIRST := Worker(1, "new", "x", "a0")]
  }

  // ----- Names -----

  /** A short label is its own sanitised form, and the name made of it is not cut. */
  lemma ShortName(fd: string)
    requires IsLabel(fd) && fd != "" && |fd| < 10
    ensures FullName("c", fd) == LegacyName("c", fd) == "c-worker-" + fd && Truncate("c-worker-" + fd) == "c-worker-" + fd
  {
    SanitizeFixesLabels(fd);
    hide Sanitize;
    assert "c" + "-worker-" + fd == "c-worker-" + fd;
  }

  lemma FullNames()
    ensures FullName("c", "d0") == FIRST && FullName("c", "d1") == SECOND
    ensures LegacyName("c", "d0") == FIRST && LegacyName("c", "d1") == SECOND
    ensures Truncate(FIRST) == FIRST && Truncate(SECOND) == SECOND
  {
    hide FullName, LegacyName, Truncate;
    ShortName("d0");
    ShortName("d1");
    assert "c-worker-" + "d0" == FIRST && "c-worker-" + "d1" == SECOND;
  }

  lemma Bases(sets: Cluster, names: seq<string>)
    ensures MappingBase(TwoMappings(), sets, names, 0) == FIRST && MappingBase(TwoMappings(), sets, names, 1) == SECOND
  {
    FullNames();
    hide FullName, LegacyName, Truncate;
  }

  lemma StrayInFamily()
    ensures InFamily(STRAY, SECOND) && !InFamily(STRAY, FIRST) && STRAY != SECOND && FIRST != SECOND
    ensures !FamiliesOverlap(FIRST, SECOND)
  {
    assert STRAY[..|SECOND|] == SECOND;
    assert STRAY[..|FIRST|][10] == '1' && FIRST[10] == '0' && SECOND[10] == '1';
  }

  lemma Families()
    ensures RecordedFamily([STRAY], FIRST) == [] && RecordedFamily([STRAY], SECOND) == [STRAY]
  {
    StrayInFamily();
    hide InFamily;
    assert [STRAY][..0] == [];
    assert RecordedFamily([], FIRST) == [] && RecordedFamily([], SECOND) == [];
  }

  lemma NoSecondCopy()
    ensures CopyName(SECOND, 1) == "c-worker-d1-2" && CopyName(SECOND, 1) !in Before() && CopyName(SECOND, 1) !in {STRAY, SECOND}
    ensures CopyName(FIRST, 0) == FIRST && CopyName(SECOND, 0) == SECOND
  {
    assert Decimal(2) == "2";
    assert SECOND + "-" + "2" == "c-worker-d1-2";
    assert "c-worker-d1-2"[12] == '2' && STRAY[12] == '5';
  }

  lemma NotOwnSuffix(name: string)
    ensures !IsSuffixed(name, name)
  {
  }

  // ----- The configuration is what preflight accepts -----

  lemma Lists()
    ensures
      var cfg := TwoMappings();
      && SourcesOf(cfg.mappings) == ["s0", "s1"] && DestinationsOf(cfg.mappings) == ["d0", "d1"]
      && NamesOf(cfg.infraFDs) == ["s0", "s1"] && NamesOf(cfg.destFDs) == ["d0", "d1"]
  {
  }

  lemma Found()
    ensures
      var cfg := TwoMappings();
      && FindByName(cfg.infraFDs, "s0") == Some(cfg.infraFDs[0]) && FindByName(cfg.infraFDs, "s1") == Some(cfg.infraFDs[1])
      && FindByName(cfg.destFDs, "d0") == Some(cfg.destFDs[0]) && FindByName(cfg.destFDs, "d1") == Some(cfg.destFDs[1])
  {
    Lists();
    hide FindByName, NamesOf;
    var cfg := TwoMappings();
    FindDistinct(cfg.infraFDs, 0);
    FindDistinct(cfg.infraFDs, 1);
    FindDistinct(cfg.destFDs, 0);
    FindDistinct(cfg.destFDs, 1);
  }

  lemma Accepted()
    ensures Ready(TwoMappings(), "old") && NoSuffixCut(TwoMappings())
  {
    Lists();
    Found();
    FullNames();
    StrayInFamily();
    NotOwnSuffix(FIRST);
    NotOwnSuffix(SECOND);
    hide FullName, Truncate, FamiliesOverlap, IsSuffixed, FindByName, NamesOf, SourcesOf, DestinationsOf;
    assert WellFormed(TwoMappings());
    assert Sourced(TwoMappings(), "old");
  }

  lemma Destinations()
    ensures Destination(TwoMappings(), 0) == Some(TwoMappings().destFDs[0]) && Destination(TwoMappings(), 1) == Some(TwoMappings().destFDs[1])
  {
    Found();
    hide FindByName;
  }

  // ----- Sources -----

  lemma AllOnOld()
    ensures OnlyServer(TwoMappings().infraFDs, "old") == TwoMappings().infraFDs
  {
    var fds := TwoMappings().infraFDs;
    assert OnlyServer(fds[1..][1..], "old") == [];
    assert OnlyServer(fds[1..], "old") == [fds[1]];
  }

  lemma Selected()
    ensures ByFailureDomain(Before(), "old", TwoMappings().infraFDs[0]) == {"a0"}
    ensures ByFailureDomain(Before(), "old", TwoMappings().infraFDs[1]) == {"b1", "b2"}
  {
  }

  lemma MatchedNames()
    ensures Matched(TwoMappings(), Before(), "old", 0) == {"a0"} && Matched(TwoMappings(), Before(), "old", 1) == {"b1", "b2"}
  {
    AllOnOld();
    Found();
    Selected();
    hide FindByName, OnlyServer, ByFailureDomain, Before;
  }

  lemma SourceLists()
    ensures MatchedSources(TwoMappings(), Before(), "old", 0) == ["a0"]
    ensures |MatchedSources(TwoMappings(), Before(), "old", 1)| == 2
    ensures ListSum(Weights(Before()), MatchedSources(TwoMappings(), Before(), "old", 1)) == 2
  {
    MatchedNames();
    BothWeigh();
    hide Matched, Sorted, Weights, Sum, Before, ListSum;
    var first, second := MatchedSources(TwoMappings(), Before(), "old", 0), MatchedSources(TwoMappings(), Before(), "old", 1);
    assert first[0] in Elements(first);
    assert first == ["a0"];
    ListSumIsSum(Weights(Before()), second);
  }

  lemma BothWeigh()
    ensures Sum(Weights(Before()), {"b1", "b2"}) == 2
  {
    var w := Weights(Before());
    assert At(w, "b1") == 1 && At(w, "b2") == 1;
    hide Weights, Before, Sum;
    SumAdd(w, {"b1"}, "b2");
    SumAdd(w, {}, "b1");
    assert {"b1"} + {"b2"} == {"b1", "b2"} && {} + {"b1"} == {"b1"};
    assert Sum(w, {}) == 0 by { NoSum(w); }
  }

  lemma NoSum(w: map<string, nat>)
    ensures Sum(w, {}) == 0
  {
  }

  // ----- The plans -----

  lemma FirstPlan()
    ensures Plan(TwoMappings(), Before(), [STRAY], "old", 0) == Ok(Expectation({FIRST}, false))
  {
    Bases(Before(), [STRAY]);
    Destinations();
    SourceLists();
    Families();
    NoSecondCopy();
    hide MappingBase, MatchedSources, RecordedFamily, CopyName, Destination;
    assert FIRST !in Before();
    assert CopyProblem(Before(), FIRST, ["a0"], "new", 0).None?;
    assert FirstCopyProblem(Before(), FIRST, ["a0"], "new", 1).None?;
    assert CopyName(FIRST, 0) in CopyNames(FIRST, 1);
    assert CopyNames(FIRST, 1) == {FIRST};
    assert Elements(RecordedFamily([STRAY], FIRST)) + CopyNames(FIRST, 1) == {FIRST};
    assert Expected(Before(), FIRST, ["a0"], "new", [STRAY]) == Ok(Expectation({FIRST}, false));
  }

  lemma SecondClass()
    ensures Classify(Before(), SECOND, MatchedSources(TwoMappings(), Before(), "old", 1), "new", [STRAY]) == Ok(Aggregate)
  {
    SourceLists();
    Families();
    NoSecondCopy();
    hide MatchedSources, RecordedFamily, CopyName, ListSum, Weights;
    assert SECOND in Before() && Before()[SECOND] == Worker(2, "new", "y", "");
  }

  lemma SecondPlan()
    ensures Plan(TwoMappings(), Before(), [STRAY], "old", 1) == Ok(Expectation({STRAY, SECOND}, true))
    ensures FallbackAggregate(TwoMappings(), Before(), [STRAY], "old", 1)
  {
    Bases(Before(), [STRAY]);
    Destinations();
    Families();
    SecondClass();
    hide MappingBase, MatchedSources, RecordedFamily, Classify, Destination;
    assert Elements([STRAY]) + {SECOND} == {STRAY, SECOND};
    assert SECOND in Before() && !Before()[SECOND].aggregate;
    assert Expected(Before(), SECOND, MatchedSources(TwoMappings(), Before(), "old", 1), "new", [STRAY]) == Ok(Expectation({STRAY, SECOND}, true));
  }

  // ----- Creation succeeds -----

  lemma RecordStands()
    ensures RecordsPlaced(TwoMappings(), Before(), [STRAY]) && Baseless(TwoMappings(), Before(), [STRAY], 1)
  {
    Bases(Before(), [STRAY]);
    Destinations();
    Families();
    StrayInFamily();
    hide MappingBase, RecordedFamily, Destination;
    assert OnServer(Before(), STRAY, "new");
    assert RecordPlaced(TwoMappings(), Before(), [STRAY], 0) && RecordPlaced(TwoMappings(), Before(), [STRAY], 1);
  }

  lemma Planned2()
    ensures Planned(TwoMappings(), Before(), [STRAY], "old", 0, 0, FIRST) && Planned(TwoMappings(), Before(), [STRAY], "old", 1, 0, SECOND)
    ensures CopiesSource(TwoMappings(), Before(), "old", 0, 0, After()[FIRST])
  {
    Bases(Before(), [STRAY]);
    Destinations();
    SourceLists();
    FirstPlan();
    SecondPlan();
    NoSecondCopy();
    hide MappingBase, MatchedSources, Plan, CopyName, Destination, FallbackAggregate;
    assert At(Weights(Before()), "a0") == 1;
  }

  lemma OnlyPlanned()
    ensures OnlyPlannedAdded(TwoMappings(), Before(), [STRAY], "old", After(), [STRAY, FIRST, SECOND])
  {
    Planned2();
    hide Planned, CopiesSource;
    assert [STRAY] <= [STRAY, FIRST, SECOND];
    forall n | n in After() ensures ValidName(n) {
    }
    assert FIRST !in Before();
  }

  lemma FirstCreated()
    ensures MappingCreated(TwoMappings(), Before(), [STRAY], "old", After(), 0)
    ensures MappingNoted(TwoMappings(), Before(), [STRAY], "old", [STRAY, FIRST, SECOND], 0)
  {
    Bases(Before(), [STRAY]);
    Destinations();
    SourceLists();
    FirstPlan();
    NoSecondCopy();
    hide MappingBase, MatchedSources, Plan, CopyName, Destination;
    assert CopyAccepted(Before(), After(), FIRST, "a0", "new");
  }

  lemma SecondCreated()
    ensures MappingCreated(TwoMappings(), Before(), [STRAY], "old", After(), 1)
    ensures MappingNoted(TwoMappings(), Before(), [STRAY], "old", [STRAY, FIRST, SECOND], 1)
  {
    Bases(Before(), [STRAY]);
    Destinations();
    SourceLists();
    SecondPlan();
    NoSecondCopy();
    StrayInFamily();
    hide MappingBase, MatchedSources, Plan, CopyName, Destination, FallbackAggregate, Weights, At;
    var sources := MatchedSources(TwoMappings(), Before(), "old", 1);
    assert OnServer(After(), SECOND, "new") && After()[SECOND].copyOf == "" && STRAY in After();
    forall i | 0 <= i < |sources| && CopyName(SECOND, i) in {STRAY, SECOND}
      ensures i == 0 && CopyAccepted(Before(), After(), SECOND, sources[i], "new")
    {
    }
  }

  /**
   Creation succeeds, every name it planned exists and is recorded, and the next Step 1 refuses the state.
   Before creation Step 1 had found the first mapping's copy missing, nothing broken.
   */
  lemma CreationRefused()
    ensures Ready(TwoMappings(), "old") && NoSuffixCut(TwoMappings()) && RecordsPlaced(TwoMappings(), Before(), [STRAY])
    ensures !Passes(TwoMappings(), Before(), [STRAY], "old", 0) && !Fails(TwoMappings(), Before(), [STRAY], "old", 0)
    ensures Created(TwoMappings(), Before(), [STRAY], "old", After(), [STRAY, FIRST, SECOND])
    ensures !Accepts(TwoMappings(), After(), [STRAY, FIRST, SECOND])
  {
    Accepted();
    RecordStands();
    OnlyPlanned();
    FirstCreated();
    SecondCreated();
    FirstMissing();
    SecondDisagrees();
    hide OnlyPlannedAdded, MappingCreated, MappingNoted, Ready, NoSuffixCut, RecordsPlaced, Disagrees, Accepts, Passes, Fails, Baseless;
    StrayInFamily();
    assert Created(TwoMappings(), Before(), [STRAY], "old", After(), [STRAY, FIRST, SECOND]) by {
      assert |TwoMappings().mappings| == 2;
    }
    assert ValidCluster(Before());
    CreationIsAccepted(TwoMappings(), "old", Before(), [STRAY], After(), [STRAY, FIRST, SECOND]);
    assert !RecordsAgree(TwoMappings(), Before(), [STRAY], "old");
  }

  lemma SecondDisagrees()
    ensures Destination(TwoMappings(), 1).Some? && Disagrees(TwoMappings(), Before(), [STRAY], "old", 1)
  {
    Destinations();
    RecordStands();
    SecondPlan();
    SourceLists();
    hide MatchedSources, MappingBase, Baseless, FallbackAggregate, RecordsPlaced, Destination, Plan;
  }

  lemma FirstMissing()
    ensures !Passes(TwoMappings(), Before(), [STRAY], "old", 0) && !Fails(TwoMappings(), Before(), [STRAY], "old", 0)
  {
    Bases(Before(), [STRAY]);
    Destinations();
    SourceLists();
    FirstPlan();
    NoSecondCopy();
    hide MappingBase, MatchedSources, Expected, CopyName, Destination, RecordedFamily, Weights;
    assert FIRST !in Before();
    assert IdentityAt(Before(), FIRST, ["a0"], 0);
  }
}
