/**
 A board with one service label "API" (id s1), one status label
 "status: MinorOutage" (id l1, not red) and one card carrying both, in a
 single list.
 */
module Scenarios {
  import opened Wrappers
  import opened Labels
  import opened Cards
  import opened Aggregation

  const Api := Label("s1", "API", Null)
  const Minor := Label("l1", "status: MinorOutage", Null)
  const Outage := Card([Minor, Api], 0, Value("down"), [])

  function OneCardBoard(listName: string): Board {
    Board([Api, Minor], [CardList(listName, [Outage])])
  }

  lemma OutageCard()
    ensures ScanSeverity(Outage.labels) == MinorOutage
    ensures ServiceIds(OneCardBoard("").labels) == ["s1"]
    ensures ServiceNames(Outage.labels, ["s1"]) == ["API"]
    ensures Names(ServiceLabels([Api, Minor])) == ["API"]
  {
    OutageSeverity();
    OutageServices();
  }

  lemma OutageSeverity()
    ensures ScanSeverity(Outage.labels) == MinorOutage
  {
    assert IsStatusLabel(Minor) by {
      assert Minor.name[..|StatusPrefix|] == StatusPrefix;
    }
    SpacedStatusLabelExample();
    assert ScanFrom([Api], MinorOutage) == MinorOutage by {
      assert !IsStatusLabel(Api);
      assert [Api][1..] == [];
    }
    assert Outage.labels[1..] == [Api];
  }

  lemma OutageServices()
    ensures ServiceIds(OneCardBoard("").labels) == ["s1"]
    ensures ServiceNames(Outage.labels, ["s1"]) == ["API"]
    ensures Names(ServiceLabels([Api, Minor])) == ["API"]
  {
    assert IsStatusLabel(Minor) by {
      assert Minor.name[..|StatusPrefix|] == StatusPrefix;
    }
    assert !IsStatusLabel(Api);
    assert ServiceLabels([Api, Minor]) == [Api] by {
      assert [Api, Minor][1..] == [Minor];
    }
    assert Outage.labels[1..] == [Api];
    assert ServiceNames([Api], ["s1"]) == ["API"];
  }

  lemma OneCardOrder(listName: string)
    ensures BoardOrder(OneCardBoard(listName).lists) == [Entry(listName, Outage)]
  {
    var lists := OneCardBoard(listName).lists;
    assert NewestFirst([Outage]) == [Outage] by {
      assert [Outage][1..] == [];
    }
    assert lists[1..] == [];
  }

  lemma RecordOne(systems: map<string, SystemStatus>, name: string, status: SystemStatus)
    ensures RecordServices(systems, [name], status) ==
      if name in systems then systems else systems[name := status]
  {
    RecordServicesUnfold(systems, [name], status);
    assert [name][1..] == [];
  }

  /** The model of the one-card board when the card sits in the list `listName`. */
  lemma OneCardModel(listName: string, render: string -> string)
    ensures var closed := listName == FixedListName;
      BuildModel(OneCardBoard(listName), render) == StatusModel(
        [Incident(MinorOutage, closed, render("down"), [])],
        if closed then map[] else map[MinorOutage := [["API"]]],
        map["API" := if closed then Operational else SystemStatus(listName, MinorOutage)])
  {
    var board := OneCardBoard(listName);
    var closed := listName == FixedListName;
    OutageCard();
    OneCardOrder(listName);
    var e := Entry(listName, Outage);
    var ids := ServiceIds(board.labels);
    var m := Step(EmptyModel, e, ids, render);
    assert Fold(EmptyModel, [e], ids, render) == m by {
      assert [e][1..] == [];
    }
    assert IsIncident(Outage, ids);
    assert IncidentOf(e, render) == Incident(MinorOutage, closed, render("down"), []);
    assert m.incidents == [Incident(MinorOutage, closed, render("down"), [])];
    var st := if closed then Operational else SystemStatus(listName, MinorOutage);
    if closed {
      assert m.systems == map[];
      assert m.panels == map[];
      RecordOne(map[], "API", Operational);
    } else {
      RecordOne(map[], "API", st);
      assert m.systems == map["API" := st];
      assert m.panels == map[MinorOutage := [["API"]]] by {
        assert Bucket(map[], MinorOutage) + [["API"]] == [["API"]];
      }
      RecordOne(m.systems, "API", Operational);
    }
    assert BackFilled(m.systems, ServiceLabels(board.labels)) == map["API" := st];
  }

  /** An open incident fills the incidents, the panel of its severity and the service's entry. */
  lemma OpenIncidentExample(render: string -> string)
    ensures BuildModel(OneCardBoard("Investigating"), render) == StatusModel(
      [Incident(MinorOutage, false, render("down"), [])],
      map[MinorOutage := [["API"]]],
      map["API" := SystemStatus("Investigating", MinorOutage)])
  {
    OneCardModel("Investigating", render);
  }

  /** An incident in the list named "fixed" is closed and leaves the service Operational. */
  lemma FixedIncidentExample(render: string -> string)
    ensures BuildModel(OneCardBoard("fixed"), render) == StatusModel(
      [Incident(MinorOutage, true, render("down"), [])],
      map[],
      map["API" := Operational])
  {
    OneCardModel("fixed", render);
  }

  /** The comparison with "fixed" is case-sensitive: a list named "Fixed" holds open incidents. */
  lemma CapitalisedFixedIsOpen(render: string -> string)
    ensures BuildModel(OneCardBoard("Fixed"), render) == StatusModel(
      [Incident(MinorOutage, false, render("down"), [])],
      map[MinorOutage := [["API"]]],
      map["API" := SystemStatus("Fixed", MinorOutage)])
  {
    OneCardModel("Fixed", render);
  }
}
