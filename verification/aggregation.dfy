/**
 The aggregator: folds the cards of the board, list by list and newest first
 within a list, into the incidents, the panels (service-name lists of open
 incidents, grouped by severity) and the per-service systems map, then
 back-fills every service label still missing from the systems map as
 Operational.
 */
module Aggregation {
  import opened Wrappers
  import opened Seqs
  import opened Labels
  import opened Cards

  datatype CardList = CardList(name: string, cards: seq<Card>)

  /** A snapshot of the board: its labels and its lists, in board order. */
  datatype Board = Board(labels: seq<Label>, lists: seq<CardList>)

  datatype RenderedComment = RenderedComment(date: Nullable<int>, html: string, initials: string)

  /** What the template receives for each incident card. */
  datatype Incident = Incident(severity: Severity, closed: bool, html: string, comments: seq<RenderedComment>)

  /** The status text and severity shown for one service. */
  datatype SystemStatus = SystemStatus(status: string, severity: Severity)

  datatype StatusModel = StatusModel(
    incidents: seq<Incident>,
    panels: map<Severity, seq<seq<string>>>,
    systems: map<string, SystemStatus>)

  const EmptyModel := StatusModel([], map[], map[])

  /** Incidents in the list with exactly this name are closed (ordinal comparison). */
  const FixedListName: string := "fixed"

  const Operational := SystemStatus("Operational", Severity.None)

  /** A card paired with the name of the list it sits in. */
  datatype Entry = Entry(listName: string, card: Card)

  // ---------------------------------------------------------------------------
  // Processing order
  // ---------------------------------------------------------------------------

  function Entries(listName: string, cards: seq<Card>): (r: seq<Entry>)
    ensures |r| == |cards|
    ensures forall i :: 0 <= i < |cards| ==> r[i] == Entry(listName, cards[i])
  {
    seq(|cards|, i requires 0 <= i < |cards| => Entry(listName, cards[i]))
  }

  /** The cards of one list, newest first. */
  function ListOrder(l: CardList): seq<Entry> {
    Entries(l.name, NewestFirst(l.cards))
  }

  /** Every card of the board in processing order: lists in board order, newest first within a list. */
  function BoardOrder(lists: seq<CardList>): seq<Entry> {
    if lists == [] then [] else ListOrder(lists[0]) + BoardOrder(lists[1..])
  }

  /** Every entry of the processing order is a card of a list, tagged with that list's name. */
  lemma {:induction false} BoardOrderCards(lists: seq<CardList>, e: Entry)
    requires e in BoardOrder(lists)
    ensures exists cl :: cl in lists && cl.name == e.listName && e.card in cl.cards
  {
    if lists != [] {
      var l := lists[0];
      if e in ListOrder(l) {
        var i :| 0 <= i < |ListOrder(l)| && ListOrder(l)[i] == e;
        var sorted := NewestFirst(l.cards);
        assert sorted[i] in multiset(sorted);
      } else {
        BoardOrderCards(lists[1..], e);
        var cl :| cl in lists[1..] && cl.name == e.listName && e.card in cl.cards;
        assert cl in lists;
      }
    }
  }

  // ---------------------------------------------------------------------------
  // One card
  // ---------------------------------------------------------------------------

  function RenderComments(comments: seq<Comment>, render: string -> string): (r: seq<RenderedComment>)
    ensures |r| == |comments|
  {
    seq(|comments|, i requires 0 <= i < |comments| =>
      RenderedComment(comments[i].date, render(comments[i].text), comments[i].initials))
  }

  /** A card is an incident when it names a service and its severity is not None. */
  predicate IsIncident(card: Card, serviceIds: seq<string>) {
    ServiceNames(card.labels, serviceIds) != [] && ScanSeverity(card.labels) != Severity.None
  }

  predicate IsOpenIncident(e: Entry, serviceIds: seq<string>) {
    IsIncident(e.card, serviceIds) && e.listName != FixedListName
  }

  function IncidentOf(e: Entry, render: string -> string): Incident {
    Incident(
      ScanSeverity(e.card.labels),
      e.listName == FixedListName,
      render(e.card.description.OrElse("")),
      RenderComments(e.card.comments, render))
  }

  /** The panel of a severity; a severity without a panel has none. */
  function Bucket(panels: map<Severity, seq<seq<string>>>, s: Severity): seq<seq<string>> {
    if s in panels then panels[s] else []
  }

  /** Appends `names` as one element to the panel of `s`, creating it on first use. */
  function AddToPanel(panels: map<Severity, seq<seq<string>>>, s: Severity, names: seq<string>)
    : (r: map<Severity, seq<seq<string>>>)
    ensures r.Keys == panels.Keys + {s}
    ensures forall t :: Bucket(r, t) == Bucket(panels, t) + (if t == s then [names] else [])
  {
    panels[s := Bucket(panels, s) + [names]]
  }

  /** Gives each name that has no entry yet the entry `status`; existing entries are kept. */
  function RecordServices(systems: map<string, SystemStatus>, names: seq<string>, status: SystemStatus)
    : (r: map<string, SystemStatus>)
    ensures r.Keys == systems.Keys + set n | n in names
    ensures forall n :: n in systems ==> r[n] == systems[n]
    ensures forall n :: n in r && n !in systems ==> r[n] == status
    decreases names
  {
    if names == [] then systems
    else
      var next := if names[0] in systems then systems else systems[names[0] := status];
      var r := RecordServices(next, names[1..], status);
      assert forall n :: n in names <==> n == names[0] || n in names[1..];
      r
  }

  lemma RecordServicesUnfold(systems: map<string, SystemStatus>, names: seq<string>, status: SystemStatus)
    requires names != []
    ensures RecordServices(systems, names, status) ==
      RecordServices(if names[0] in systems then systems else systems[names[0] := status], names[1..], status)
  {
  }

  /** What processing one card does to the model. */
  function Step(m: StatusModel, e: Entry, serviceIds: seq<string>, render: string -> string): StatusModel {
    var s := ScanSeverity(e.card.labels);
    var names := ServiceNames(e.card.labels, serviceIds);
    if names == [] || s == Severity.None then m
    else if e.listName == FixedListName then
      m.(incidents := m.incidents + [IncidentOf(e, render)])
    else
      StatusModel(
        m.incidents + [IncidentOf(e, render)],
        AddToPanel(m.panels, s, names),
        RecordServices(m.systems, names, SystemStatus(e.listName, s)))
  }

  /**
   A card that is not an incident changes nothing; an incident is appended;
   a closed incident touches neither panels nor systems; an open incident
   appends its service names as one element to the panel of its severity,
   leaves every other panel alone, and gives its list name and severity to
   each of its services that has no entry yet, overwriting none.
   */
  lemma StepEffect(m: StatusModel, e: Entry, serviceIds: seq<string>, render: string -> string)
    ensures var r := Step(m, e, serviceIds, render);
      && (!IsIncident(e.card, serviceIds) ==> r == m)
      && (IsIncident(e.card, serviceIds) ==> r.incidents == m.incidents + [IncidentOf(e, render)])
      && (IsIncident(e.card, serviceIds) && e.listName == FixedListName ==>
            r.panels == m.panels && r.systems == m.systems)
  {
  }

  lemma StepOpenIncident(m: StatusModel, e: Entry, serviceIds: seq<string>, render: string -> string)
    requires IsOpenIncident(e, serviceIds)
    ensures var r := Step(m, e, serviceIds, render);
      var s := ScanSeverity(e.card.labels);
      var names := ServiceNames(e.card.labels, serviceIds);
      && s != Severity.None
      && (forall t :: Bucket(r.panels, t) == Bucket(m.panels, t) + (if t == s then [names] else []))
      && r.panels.Keys == m.panels.Keys + {s}
      && r.systems.Keys == m.systems.Keys + set n | n in names
      && (forall n :: n in m.systems ==> n in r.systems && r.systems[n] == m.systems[n])
      && (forall n :: n in r.systems && n !in m.systems ==> r.systems[n] == SystemStatus(e.listName, s))
  {
    var s := ScanSeverity(e.card.labels);
    var names := ServiceNames(e.card.labels, serviceIds);
    StepOpenPanels(m, e, serviceIds, render, s, names);
    StepOpenSystems(m, e, serviceIds, render, s, names);
  }

  lemma StepOpenPanels(m: StatusModel, e: Entry, serviceIds: seq<string>, render: string -> string, s: Severity, names: seq<string>)
    requires IsOpenIncident(e, serviceIds)
    requires s == ScanSeverity(e.card.labels) && names == ServiceNames(e.card.labels, serviceIds)
    ensures Step(m, e, serviceIds, render).panels == AddToPanel(m.panels, s, names)
  {
  }

  lemma StepOpenSystems(m: StatusModel, e: Entry, serviceIds: seq<string>, render: string -> string, s: Severity, names: seq<string>)
    requires IsOpenIncident(e, serviceIds)
    requires s == ScanSeverity(e.card.labels) && names == ServiceNames(e.card.labels, serviceIds)
    ensures Step(m, e, serviceIds, render).systems == RecordServices(m.systems, names, SystemStatus(e.listName, s))
  {
  }

  // ---------------------------------------------------------------------------
  // The whole board
  // ---------------------------------------------------------------------------

  /** Processes `es` one card after the other. */
  function Fold(m: StatusModel, es: seq<Entry>, serviceIds: seq<string>, render: string -> string): StatusModel
    decreases es
  {
    if es == [] then m else Fold(Step(m, es[0], serviceIds, render), es[1..], serviceIds, render)
  }

  function BackFilled(systems: map<string, SystemStatus>, serviceLabels: seq<Label>): map<string, SystemStatus> {
    RecordServices(systems, Names(serviceLabels), Operational)
  }

  /** The status model of a board snapshot. */
  function BuildModel(board: Board, render: string -> string): StatusModel {
    var m := Fold(EmptyModel, BoardOrder(board.lists), ServiceIds(board.labels), render);
    m.(systems := BackFilled(m.systems, ServiceLabels(board.labels)))
  }

  lemma {:induction false} FoldAppend(m: StatusModel, a: seq<Entry>, b: seq<Entry>, serviceIds: seq<string>, render: string -> string)
    ensures Fold(m, a + b, serviceIds, render) == Fold(Fold(m, a, serviceIds, render), b, serviceIds, render)
    decreases a
  {
    if a == [] {
      assert a + b == b;
    } else {
      assert (a + b)[0] == a[0] && (a + b)[1..] == a[1..] + b;
      FoldAppend(Step(m, a[0], serviceIds, render), a[1..], b, serviceIds, render);
    }
  }

  // ---------------------------------------------------------------------------
  // Reference definitions of the three outputs
  // ---------------------------------------------------------------------------

  /** The entries that are incidents, in processing order. */
  function IncidentEntries(es: seq<Entry>, serviceIds: seq<string>): seq<Entry> {
    if es == [] then []
    else (if IsIncident(es[0].card, serviceIds) then [es[0]] else []) + IncidentEntries(es[1..], serviceIds)
  }

  /** The service-name lists of the open incidents of severity `s`, in processing order. */
  function OpenPanel(es: seq<Entry>, serviceIds: seq<string>, s: Severity): seq<seq<string>> {
    if es == [] then []
    else
      PanelEntry(es[0], serviceIds, s) + OpenPanel(es[1..], serviceIds, s)
  }

  /** The list name and severity of the first open incident that names service `n`. */
  function FirstOpenWriter(es: seq<Entry>, serviceIds: seq<string>, n: string): Nullable<SystemStatus> {
    if es == [] then Null
    else if IsOpenIncident(es[0], serviceIds) && n in ServiceNames(es[0].card.labels, serviceIds) then
      Value(SystemStatus(es[0].listName, ScanSeverity(es[0].card.labels)))
    else FirstOpenWriter(es[1..], serviceIds, n)
  }

  function Get<K, V>(m: map<K, V>, k: K): Nullable<V> {
    if k in m then Value(m[k]) else Null
  }

  /** No panel for None, and no empty panel. */
  predicate PanelsValid(panels: map<Severity, seq<seq<string>>>) {
    Severity.None !in panels && forall s :: s in panels ==> panels[s] != []
  }

  // ---------------------------------------------------------------------------
  // What the fold computes
  // ---------------------------------------------------------------------------

  /** Incidents are the incident cards, in processing order, one each. */
  lemma {:induction false} FoldIncidents(m: StatusModel, es: seq<Entry>, serviceIds: seq<string>, render: string -> string)
    ensures var q := IncidentEntries(es, serviceIds);
      Fold(m, es, serviceIds, render).incidents ==
        m.incidents + seq(|q|, i requires 0 <= i < |q| => IncidentOf(q[i], render))
    decreases es
  {
    if es != [] {
      var m' := Step(m, es[0], serviceIds, render);
      FoldIncidents(m', es[1..], serviceIds, render);
      StepEffect(m, es[0], serviceIds, render);
      var q := IncidentEntries(es, serviceIds);
      var q' := IncidentEntries(es[1..], serviceIds);
      var mapped := seq(|q|, i requires 0 <= i < |q| => IncidentOf(q[i], render));
      var mapped' := seq(|q'|, i requires 0 <= i < |q'| => IncidentOf(q'[i], render));
      if IsIncident(es[0].card, serviceIds) {
        assert mapped == [IncidentOf(es[0], render)] + mapped';
      } else {
        assert mapped == mapped';
      }
    }
  }

  /** The panel contribution of one entry. */
  function PanelEntry(e: Entry, serviceIds: seq<string>, s: Severity): seq<seq<string>> {
    if IsOpenIncident(e, serviceIds) && ScanSeverity(e.card.labels) == s
    then [ServiceNames(e.card.labels, serviceIds)] else []
  }

  lemma StepBucket(m: StatusModel, e: Entry, serviceIds: seq<string>, render: string -> string, s: Severity)
    ensures Bucket(Step(m, e, serviceIds, render).panels, s) == Bucket(m.panels, s) + PanelEntry(e, serviceIds, s)
  {
    StepEffect(m, e, serviceIds, render);
    if IsOpenIncident(e, serviceIds) {
      StepOpenIncident(m, e, serviceIds, render);
    }
  }

  /** Each panel grows by the service-name lists of the open incidents of its severity. */
  lemma {:induction false} FoldPanels(m: StatusModel, es: seq<Entry>, serviceIds: seq<string>, render: string -> string, s: Severity)
    ensures Bucket(Fold(m, es, serviceIds, render).panels, s) == Bucket(m.panels, s) + OpenPanel(es, serviceIds, s)
    decreases es
  {
    if es != [] {
      var m' := Step(m, es[0], serviceIds, render);
      StepBucket(m, es[0], serviceIds, render, s);
      FoldPanels(m', es[1..], serviceIds, render, s);
      AppendAssociates(Bucket(m.panels, s), PanelEntry(es[0], serviceIds, s), OpenPanel(es[1..], serviceIds, s));
    }
  }


  /** The fold never creates a None panel or an empty one. */
  lemma {:induction false} FoldKeepsPanelsValid(m: StatusModel, es: seq<Entry>, serviceIds: seq<string>, render: string -> string)
    requires PanelsValid(m.panels)
    ensures PanelsValid(Fold(m, es, serviceIds, render).panels)
    decreases es
  {
    if es != [] {
      var m' := Step(m, es[0], serviceIds, render);
      StepEffect(m, es[0], serviceIds, render);
      if IsOpenIncident(es[0], serviceIds) {
        StepOpenIncident(m, es[0], serviceIds, render);
        forall t | t in m'.panels ensures m'.panels[t] != [] {
          assert Bucket(m'.panels, t) == m'.panels[t];
        }
      }
      FoldKeepsPanelsValid(m', es[1..], serviceIds, render);
    }
  }

  /**
   First writer wins: an existing entry of the systems map is kept, and a
   service without one gets the list name and severity of the first open
   incident that names it, or stays absent.
   */
  lemma {:induction false} FoldSystems(m: StatusModel, es: seq<Entry>, serviceIds: seq<string>, render: string -> string, n: string)
    ensures Get(Fold(m, es, serviceIds, render).systems, n) ==
      if n in m.systems then Value(m.systems[n]) else FirstOpenWriter(es, serviceIds, n)
    decreases es
  {
    if es != [] {
      var m' := Step(m, es[0], serviceIds, render);
      FoldSystems(m', es[1..], serviceIds, render, n);
      StepEffect(m, es[0], serviceIds, render);
      if IsOpenIncident(es[0], serviceIds) {
        StepOpenIncident(m, es[0], serviceIds, render);
      }
    }
  }

  /** A service set by the first writer names that writer's card. */
  lemma {:induction false} FirstOpenWriterNamed(es: seq<Entry>, serviceIds: seq<string>, n: string)
    requires FirstOpenWriter(es, serviceIds, n).Value?
    ensures exists e :: e in es && n in ServiceNames(e.card.labels, serviceIds)
  {
    if !(IsOpenIncident(es[0], serviceIds) && n in ServiceNames(es[0].card.labels, serviceIds)) {
      FirstOpenWriterNamed(es[1..], serviceIds, n);
      var e :| e in es[1..] && n in ServiceNames(e.card.labels, serviceIds);
      assert e in es;
    }
  }

  // ---------------------------------------------------------------------------
  // What the whole computation promises
  // ---------------------------------------------------------------------------

  /**
   The systems map of a board: a service named by an open incident shows the
   first such incident's list name and severity; every other service label
   name shows Operational; no other name has an entry.
   */
  lemma BuildModelSystems(board: Board, render: string -> string, n: string)
    ensures var order := BoardOrder(board.lists);
      var w := FirstOpenWriter(order, ServiceIds(board.labels), n);
      Get(BuildModel(board, render).systems, n) ==
        if w.Value? then w
        else if n in Names(ServiceLabels(board.labels)) then Value(Operational)
        else Null
  {
    var order := BoardOrder(board.lists);
    FoldSystems(EmptyModel, order, ServiceIds(board.labels), render, n);
  }

  /** The incidents of a board are its incident cards in processing order, one each. */
  lemma BuildModelIncidents(board: Board, render: string -> string)
    ensures var q := IncidentEntries(BoardOrder(board.lists), ServiceIds(board.labels));
      BuildModel(board, render).incidents == seq(|q|, i requires 0 <= i < |q| => IncidentOf(q[i], render))
  {
    FoldIncidents(EmptyModel, BoardOrder(board.lists), ServiceIds(board.labels), render);
  }

  /** Every panel of a board is the service-name lists of its open incidents of that severity. */
  lemma BuildModelPanels(board: Board, render: string -> string)
    ensures PanelsValid(BuildModel(board, render).panels)
    ensures forall s ::
      Bucket(BuildModel(board, render).panels, s) == OpenPanel(BoardOrder(board.lists), ServiceIds(board.labels), s)
  {
    var order := BoardOrder(board.lists);
    var ids := ServiceIds(board.labels);
    var panels := Fold(EmptyModel, order, ids, render).panels;
    assert BuildModel(board, render).panels == panels;
    FoldKeepsPanelsValid(EmptyModel, order, ids, render);
    forall s ensures Bucket(panels, s) == OpenPanel(order, ids, s) {
      FoldPanels(EmptyModel, order, ids, render, s);
    }
  }

  /** Label ids are unique and every card label is one of the board's labels. */
  predicate WellFormed(board: Board) {
    && (forall i, j :: 0 <= i < j < |board.labels| ==> board.labels[i].id != board.labels[j].id)
    && (forall cl, c, l :: cl in board.lists && c in cl.cards && l in c.labels ==> l in board.labels)
  }

  /**
   On a well-formed board every service a processed card names, whether its
   incident is open or closed, is a service label name.
   */
  lemma NamedServiceIsServiceLabel(board: Board, e: Entry, n: string)
    requires WellFormed(board)
    requires e in BoardOrder(board.lists) && n in ServiceNames(e.card.labels, ServiceIds(board.labels))
    ensures n in Names(ServiceLabels(board.labels))
  {
    var ids := ServiceIds(board.labels);
    BoardOrderCards(board.lists, e);
    var l :| l in e.card.labels && l.id in ids && l.name == n;
    var cl :| cl in board.lists && cl.name == e.listName && e.card in cl.cards;
    assert l in board.labels;
    CardServiceLabel(board.labels, l);
  }

  /** Every element of a panel is the service-name list of an open incident of that severity. */
  lemma {:induction false} OpenPanelElement(es: seq<Entry>, serviceIds: seq<string>, s: Severity, p: seq<string>)
    requires p in OpenPanel(es, serviceIds, s)
    ensures exists e :: (e in es && IsOpenIncident(e, serviceIds) && ScanSeverity(e.card.labels) == s &&
      p == ServiceNames(e.card.labels, serviceIds))
  {
    if p in PanelEntry(es[0], serviceIds, s) {
      assert es[0] in es;
    } else {
      OpenPanelElement(es[1..], serviceIds, s, p);
      var e :| e in es[1..] && IsOpenIncident(e, serviceIds) && ScanSeverity(e.card.labels) == s &&
        p == ServiceNames(e.card.labels, serviceIds);
      assert e in es;
    }
  }

  /** On a well-formed board every name in every panel is a service label name. */
  lemma PanelNamesAreServiceLabels(board: Board, render: string -> string, s: Severity, p: seq<string>, n: string)
    requires WellFormed(board)
    requires p in Bucket(BuildModel(board, render).panels, s) && n in p
    ensures n in Names(ServiceLabels(board.labels))
  {
    var order := BoardOrder(board.lists);
    var ids := ServiceIds(board.labels);
    BuildModelPanels(board, render);
    OpenPanelElement(order, ids, s, p);
    var e :| e in order && IsOpenIncident(e, ids) && ScanSeverity(e.card.labels) == s &&
      p == ServiceNames(e.card.labels, ids);
    NamedServiceIsServiceLabel(board, e, n);
  }

  /**
   With unique ids, a board label carrying a service id is a service label,
   so its name is a service label name.
   */
  lemma CardServiceLabel(labels: seq<Label>, l: Label)
    requires forall i, j :: 0 <= i < j < |labels| ==> labels[i].id != labels[j].id
    requires l in labels && l.id in ServiceIds(labels)
    ensures l.name in Names(ServiceLabels(labels))
  {
    var l' :| l' in labels && !IsStatusLabel(l') && l'.id == l.id;
    SameIdSameLabel(labels, l, l');
    var service := ServiceLabels(labels);
    assert l in service;
    var k :| 0 <= k < |service| && service[k] == l;
    assert Names(service)[k] == l.name;
  }

  /** With unique ids, two board labels with the same id are the same label. */
  lemma SameIdSameLabel(labels: seq<Label>, a: Label, b: Label)
    requires forall i, j :: 0 <= i < j < |labels| ==> labels[i].id != labels[j].id
    requires a in labels && b in labels && a.id == b.id
    ensures a == b
  {
    var i :| 0 <= i < |labels| && labels[i] == a;
    var j :| 0 <= j < |labels| && labels[j] == b;
    if i < j {} else if j < i {}
  }

  /** On a well-formed board the systems map has exactly one entry per service label name. */
  lemma BuildModelSystemKeys(board: Board, render: string -> string)
    requires WellFormed(board)
    ensures BuildModel(board, render).systems.Keys == set n | n in Names(ServiceLabels(board.labels))
  {
    var keys := BuildModel(board, render).systems.Keys;
    forall n | n in keys ensures n in Names(ServiceLabels(board.labels)) {
      BuildModelSystems(board, render, n);
      if FirstOpenWriter(BoardOrder(board.lists), ServiceIds(board.labels), n).Value? {
        var order := BoardOrder(board.lists);
        var ids := ServiceIds(board.labels);
        FirstOpenWriterNamed(order, ids, n);
        var e :| e in order && n in ServiceNames(e.card.labels, ids);
        NamedServiceIsServiceLabel(board, e, n);
      }
    }
    forall n | n in Names(ServiceLabels(board.labels)) ensures n in keys {
      BuildModelSystems(board, render, n);
    }
  }

  // ---------------------------------------------------------------------------
  // The builder, updated in place card by card
  // ---------------------------------------------------------------------------

  class StatusBuilder {
    var incidents: seq<Incident>
    var panels: map<Severity, seq<seq<string>>>
    var systems: map<string, SystemStatus>

    function Model(): StatusModel
      reads this
    {
      StatusModel(incidents, panels, systems)
    }

    predicate Valid()
      reads this
    {
      PanelsValid(panels)
    }

    constructor ()
      ensures Valid() && Model() == EmptyModel
    {
      incidents := [];
      panels := map[];
      systems := map[];
    }

    /** Evaluates one card of the list named `listName` and records it if it is an incident. */
    method ProcessCard(listName: string, card: Card, serviceIds: seq<string>, render: string -> string)
      requires Valid()
      modifies this
      ensures Valid()
      ensures Model() == Step(old(Model()), Entry(listName, card), serviceIds, render)
    {
      var severity := ScanCardSeverity(card.labels);
      var names := ServiceNames(card.labels, serviceIds);
      if |names| == 0 || severity == Severity.None {
        return;
      }
      var closed := listName == FixedListName;
      if !closed {
        ghost var before := panels;
        if severity !in panels {
          panels := panels[severity := []];
        }
        panels := panels[severity := panels[severity] + [names]];
        assert panels == AddToPanel(before, severity, names) by {
          if severity !in before {
            assert [] + [names] == [names];
          }
        }
        RecordSystems(names, SystemStatus(listName, severity));
      }
      var html := render(card.description.OrElse(""));
      var comments := RenderCardComments(card.comments, render);
      assert comments == RenderComments(card.comments, render);
      incidents := incidents + [Incident(severity, closed, html, comments)];
    }

    /** Inserts `status` for every name without an entry; existing entries are left alone. */
    method RecordSystems(names: seq<string>, status: SystemStatus)
      modifies this
      ensures systems == RecordServices(old(systems), names, status)
      ensures incidents == old(incidents) && panels == old(panels)
    {
      var i := 0;
      while i < |names|
        invariant 0 <= i <= |names|
        invariant incidents == old(incidents) && panels == old(panels)
        invariant RecordServices(systems, names[i..], status) == RecordServices(old(systems), names, status)
      {
        RecordServicesUnfold(systems, names[i..], status);
        assert names[i..][0] == names[i] && names[i..][1..] == names[i + 1..];
        if names[i] !in systems {
          systems := systems[names[i] := status];
        }
        i := i + 1;
      }
    }

    /** Processes the cards of one list, newest first. */
    method ProcessList(cardList: CardList, serviceIds: seq<string>, render: string -> string)
      requires Valid()
      modifies this
      ensures Valid()
      ensures Model() == Fold(old(Model()), ListOrder(cardList), serviceIds, render)
    {
      var cards := NewestFirst(cardList.cards);
      var j := 0;
      while j < |cards|
        invariant 0 <= j <= |cards|
        invariant Valid()
        invariant Fold(Model(), Entries(cardList.name, cards[j..]), serviceIds, render)
          == Fold(old(Model()), ListOrder(cardList), serviceIds, render)
      {
        assert Entries(cardList.name, cards[j..])
          == [Entry(cardList.name, cards[j])] + Entries(cardList.name, cards[j + 1..]);
        ProcessCard(cardList.name, cards[j], serviceIds, render);
        j := j + 1;
      }
    }

    /** Processes the lists in board order. */
    method ProcessLists(lists: seq<CardList>, serviceIds: seq<string>, render: string -> string)
      requires Valid()
      modifies this
      ensures Valid()
      ensures Model() == Fold(old(Model()), BoardOrder(lists), serviceIds, render)
    {
      var i := 0;
      while i < |lists|
        invariant 0 <= i <= |lists|
        invariant Valid()
        invariant Fold(Model(), BoardOrder(lists[i..]), serviceIds, render)
          == Fold(old(Model()), BoardOrder(lists), serviceIds, render)
      {
        assert lists[i..][0] == lists[i] && lists[i..][1..] == lists[i + 1..];
        FoldAppend(Model(), ListOrder(lists[i]), BoardOrder(lists[i + 1..]), serviceIds, render);
        ProcessList(lists[i], serviceIds, render);
        i := i + 1;
      }
    }

    /** Gives every service label without an entry the Operational entry. */
    method BackFill(serviceLabels: seq<Label>)
      requires Valid()
      modifies this
      ensures Valid()
      ensures systems == BackFilled(old(systems), serviceLabels)
      ensures incidents == old(incidents) && panels == old(panels)
    {
      var names := Names(serviceLabels);
      var i := 0;
      while i < |serviceLabels|
        invariant 0 <= i <= |serviceLabels|
        invariant incidents == old(incidents) && panels == old(panels)
        invariant RecordServices(systems, names[i..], Operational) == RecordServices(old(systems), names, Operational)
      {
        assert names[i..][0] == serviceLabels[i].name && names[i..][1..] == names[i + 1..];
        var name := serviceLabels[i].name;
        if name !in systems {
          systems := systems[name := Operational];
        }
        i := i + 1;
      }
    }
  }

  /** Renders each comment's text, copying its date and initials. */
  method RenderCardComments(comments: seq<Comment>, render: string -> string) returns (r: seq<RenderedComment>)
    ensures |r| == |comments|
    ensures forall i :: 0 <= i < |comments| ==>
      r[i].date == comments[i].date && r[i].html == render(comments[i].text) && r[i].initials == comments[i].initials
  {
    r := [];
    for j := 0 to |comments|
      invariant |r| == j
      invariant forall i :: 0 <= i < j ==>
        r[i].date == comments[i].date && r[i].html == render(comments[i].text) && r[i].initials == comments[i].initials
    {
      var c := comments[j];
      r := r + [RenderedComment(c.date, render(c.text), c.initials)];
    }
  }

  /**
   Classifies the board's labels, folds every card into a fresh builder and
   back-fills the services without an open incident.
   */
  method BuildStatusModel(board: Board, render: string -> string) returns (model: StatusModel)
    ensures model == BuildModel(board, render)
    ensures PanelsValid(model.panels)
    ensures forall n :: n in Names(ServiceLabels(board.labels)) ==> n in model.systems
  {
    var serviceLabels := ServiceLabels(board.labels);
    var serviceIds := Ids(serviceLabels);
    var builder := new StatusBuilder();
    builder.ProcessLists(board.lists, serviceIds, render);
    builder.BackFill(serviceLabels);
    model := builder.Model();
    BuildModelPanels(board, render);
  }
}
