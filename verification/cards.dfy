/**
 The card evaluator: a card's severity (a scan of its labels with early
 exits), the names of the services it affects, and the newest-first order
 in which the cards of one list are processed.
 */
module Cards {
  import opened Wrappers
  import opened Seqs
  import opened Labels

  /** A comment on a card; its text is rendered, its date and initials are copied. */
  datatype Comment = Comment(date: Nullable<int>, text: string, initials: string)

  /** A card: its labels in order, its creation date as a sort key, its description and comments. */
  datatype Card = Card(labels: seq<Label>, createdAt: int, description: Nullable<string>, comments: seq<Comment>)

  // ---------------------------------------------------------------------------
  // Severity scan
  // ---------------------------------------------------------------------------

  /**
   The severity a scan of `labels` ends with when the running value is
   `running`: service labels are passed over; a status label whose suffix does
   not parse ends the scan with None (the failed parse resets the running
   value); one that parses replaces the running value and, when red, ends the
   scan.
   */
  function ScanFrom(labels: seq<Label>, running: Severity): Severity
  {
    if labels == [] then running
    else if !IsStatusLabel(labels[0]) then ScanFrom(labels[1..], running)
    else match ParseSeverity(StatusSuffix(labels[0].name))
      case Unparseable => Severity.None
      case Parsed(s) => if labels[0].color == Value(Red) then s else ScanFrom(labels[1..], s)
  }

  /** The severity of a card with these labels. */
  function ScanSeverity(labels: seq<Label>): Severity {
    ScanFrom(labels, Severity.None)
  }

  /** The scan, label by label, with its two early exits. */
  method ScanCardSeverity(labels: seq<Label>) returns (severity: Severity)
    ensures severity == ScanSeverity(labels)
  {
    severity := Severity.None;
    var i := 0;
    while i < |labels|
      invariant 0 <= i <= |labels|
      invariant ScanFrom(labels[i..], severity) == ScanSeverity(labels)
    {
      var lbl := labels[i];
      assert labels[i..][0] == lbl && labels[i..][1..] == labels[i + 1..];
      i := i + 1;
      if !StartsWith(lbl.name, StatusPrefix) {
        continue;
      }
      var suffix := RemoveSpaces(lbl.name[|StatusPrefix|..]);
      var parsed := ParseSeverity(suffix);
      if parsed.Unparseable? {
        severity := Severity.None;
        break;
      }
      severity := parsed.severity;
      if lbl.color == Value(Red) {
        break;
      }
    }
  }

  /** A status label that lets the scan go on: it parses and is not red. */
  predicate Passes(l: Label)
    requires IsStatusLabel(l)
  {
    ParseSeverity(StatusSuffix(l.name)).Parsed? && l.color != Value(Red)
  }

  /** A status label that ends the scan: it does not parse, or it parses and is red. */
  predicate Stops(l: Label) {
    IsStatusLabel(l) && !Passes(l)
  }

  /**
   The value the parse leaves in the running severity: the parsed severity,
   or None (the enum's default) when the suffix does not parse.
   */
  function TryParseSeverity(l: Label): Severity
    requires IsStatusLabel(l)
  {
    match ParseSeverity(StatusSuffix(l.name))
    case Unparseable => Severity.None
    case Parsed(s) => s
  }

  /** Service labels play no part in the scan. */
  lemma {:induction false} ScanIgnoresServiceLabels(labels: seq<Label>, running: Severity)
    ensures ScanFrom(labels, running) == ScanFrom(StatusLabels(labels), running)
  {
    if labels != [] {
      ScanIgnoresServiceLabels(labels[1..], running);
      var st := StatusLabels(labels);
      if IsStatusLabel(labels[0]) {
        assert st[0] == labels[0] && st[1..] == StatusLabels(labels[1..]);
        match ParseSeverity(StatusSuffix(labels[0].name))
        case Unparseable =>
        case Parsed(s) =>
          ScanIgnoresServiceLabels(labels[1..], s);
      } else {
        assert st == StatusLabels(labels[1..]);
      }
    }
  }

  /** On status labels only: the first stopping label decides the result. */
  lemma {:induction false} ScanFirstStop(st: seq<Label>, k: nat, running: Severity)
    requires k < |st|
    requires forall j :: 0 <= j < |st| ==> IsStatusLabel(st[j])
    requires forall j :: 0 <= j < k ==> Passes(st[j])
    requires Stops(st[k])
    ensures ScanFrom(st, running) == TryParseSeverity(st[k])
  {
    if k > 0 {
      ScanFirstStop(st[1..], k - 1, TryParseSeverity(st[0]));
    }
  }

  /** On status labels only: with no stopping label, the last label's severity wins. */
  lemma {:induction false} ScanNoStop(st: seq<Label>, running: Severity)
    requires forall j :: 0 <= j < |st| ==> IsStatusLabel(st[j]) && Passes(st[j])
    ensures ScanFrom(st, running) ==
      if st == [] then running else TryParseSeverity(st[|st| - 1])
  {
    if st != [] {
      ScanNoStop(st[1..], TryParseSeverity(st[0]));
    }
  }

  /**
   When the first stopping status label of a card does not parse, the card's
   severity is None, whatever came before it or follows it.
   */
  lemma ScanStopsAtUnparseable(labels: seq<Label>, k: nat)
    requires k < |StatusLabels(labels)|
    requires forall j :: 0 <= j < k ==> Passes(StatusLabels(labels)[j])
    requires ParseSeverity(StatusSuffix(StatusLabels(labels)[k].name)) == Unparseable
    ensures ScanSeverity(labels) == Severity.None
  {
    var st := StatusLabels(labels);
    assert forall j :: 0 <= j < |st| ==> st[j] in st;
    ScanIgnoresServiceLabels(labels, Severity.None);
    ScanFirstStop(st, k, Severity.None);
  }

  /**
   When the first stopping status label of a card is a red label that
   parses, the card's severity is that label's severity, even if a later
   label names a higher one.
   */
  lemma ScanStopsAtRed(labels: seq<Label>, k: nat, s: Severity)
    requires k < |StatusLabels(labels)|
    requires forall j :: 0 <= j < k ==> Passes(StatusLabels(labels)[j])
    requires ParseSeverity(StatusSuffix(StatusLabels(labels)[k].name)) == Parsed(s)
    requires StatusLabels(labels)[k].color == Value(Red)
    ensures ScanSeverity(labels) == s
  {
    var st := StatusLabels(labels);
    assert forall j :: 0 <= j < |st| ==> st[j] in st;
    ScanIgnoresServiceLabels(labels, Severity.None);
    ScanFirstStop(st, k, Severity.None);
  }

  /**
   When no status label stops the scan, the last status label's severity is
   the card's severity (not the highest one); without status labels it is None.
   */
  lemma ScanWithoutStop(labels: seq<Label>)
    requires forall l :: l in StatusLabels(labels) ==> Passes(l)
    ensures var st := StatusLabels(labels);
      ScanSeverity(labels) ==
        if st == [] then Severity.None else TryParseSeverity(st[|st| - 1])
  {
    var st := StatusLabels(labels);
    assert forall j :: 0 <= j < |st| ==> st[j] in st;
    ScanIgnoresServiceLabels(labels, Severity.None);
    ScanNoStop(st, Severity.None);
  }

  /** Labels after a stopping label never change the result. */
  lemma {:induction false} ScanIgnoresLabelsAfterStop(labels: seq<Label>, later: seq<Label>, running: Severity)
    requires exists l :: l in labels && Stops(l)
    ensures ScanFrom(labels + later, running) == ScanFrom(labels, running)
  {
    assert labels != [];
    assert (labels + later)[0] == labels[0] && (labels + later)[1..] == labels[1..] + later;
    if IsStatusLabel(labels[0]) && Stops(labels[0]) {
    } else {
      assert exists l :: l in labels[1..] && Stops(l) by {
        var l :| l in labels && Stops(l);
        assert l != labels[0];
        assert l in labels[1..] by { assert labels == [labels[0]] + labels[1..]; }
      }
      if IsStatusLabel(labels[0]) {
        ScanIgnoresLabelsAfterStop(labels[1..], later, TryParseSeverity(labels[0]));
      } else {
        ScanIgnoresLabelsAfterStop(labels[1..], later, running);
      }
    }
  }

  /** The card's severity is None or the severity named by one of its status labels. */
  lemma {:induction false} ScanResultIsNamed(labels: seq<Label>, running: Severity)
    ensures var r := ScanFrom(labels, running);
      r == running || r == Severity.None ||
      exists l :: l in labels && IsStatusLabel(l) && ParseSeverity(StatusSuffix(l.name)) == Parsed(r)
  {
    if labels != [] {
      if IsStatusLabel(labels[0]) {
        match ParseSeverity(StatusSuffix(labels[0].name))
        case Unparseable =>
        case Parsed(s) =>
          if labels[0].color != Value(Red) {
            ScanResultIsNamed(labels[1..], s);
          }
      } else {
        ScanResultIsNamed(labels[1..], running);
      }
    }
  }

  // ---------------------------------------------------------------------------
  // Service names
  // ---------------------------------------------------------------------------

  /** The names of the card's labels whose id is a service id, in the card's label order. */
  function ServiceNames(labels: seq<Label>, serviceIds: seq<string>): (r: seq<string>)
    ensures |r| <= |labels|
    ensures forall n :: n in r <==> exists l :: l in labels && l.id in serviceIds && l.name == n
  {
    if labels == [] then []
    else
      assert forall l :: l in labels <==> l == labels[0] || l in labels[1..];
      (if labels[0].id in serviceIds then [labels[0].name] else []) + ServiceNames(labels[1..], serviceIds)
  }

  /** One card label contributes its name exactly when its id is a service id. */
  lemma ServiceNamesSingle(l: Label, serviceIds: seq<string>)
    ensures ServiceNames([l], serviceIds) == if l.id in serviceIds then [l.name] else []
  {
  }

  /**
   The names of a run of labels are the names of its parts, one after the
   other: card-label order is kept and a name carried by two labels appears twice.
   */
  lemma {:induction false} ServiceNamesAppend(a: seq<Label>, b: seq<Label>, serviceIds: seq<string>)
    ensures ServiceNames(a + b, serviceIds) == ServiceNames(a, serviceIds) + ServiceNames(b, serviceIds)
  {
    if a == [] {
      assert a + b == b;
    } else {
      assert (a + b)[0] == a[0] && (a + b)[1..] == a[1..] + b;
      var head := if a[0].id in serviceIds then [a[0].name] else [];
      assert ServiceNames(a + b, serviceIds) == head + ServiceNames(a[1..] + b, serviceIds);
      ServiceNamesAppend(a[1..], b, serviceIds);
      AppendAssociates(head, ServiceNames(a[1..], serviceIds), ServiceNames(b, serviceIds));
    }
  }

  // ---------------------------------------------------------------------------
  // Newest-first order
  // ---------------------------------------------------------------------------

  predicate NewestFirstOrdered(cards: seq<Card>) {
    forall i, j :: 0 <= i < j < |cards| ==> cards[i].createdAt >= cards[j].createdAt
  }

  /** Puts `c` in front of the first card that is not newer than it. */
  function InsertNewestFirst(c: Card, sorted: seq<Card>): (r: seq<Card>)
    ensures multiset(r) == multiset(sorted) + multiset{c}
  {
    if sorted == [] || c.createdAt >= sorted[0].createdAt then [c] + sorted
    else
      assert sorted == [sorted[0]] + sorted[1..];
      [sorted[0]] + InsertNewestFirst(c, sorted[1..])
  }

  /** A stable sort on descending creation date. */
  function NewestFirst(cards: seq<Card>): (r: seq<Card>)
    ensures multiset(r) == multiset(cards)
    ensures |r| == |cards|
  {
    if cards == [] then []
    else
      assert cards == [cards[0]] + cards[1..];
      InsertNewestFirst(cards[0], NewestFirst(cards[1..]))
  }

  lemma {:induction false} InsertKeepsOrder(c: Card, sorted: seq<Card>)
    requires NewestFirstOrdered(sorted)
    ensures NewestFirstOrdered(InsertNewestFirst(c, sorted))
  {
    if sorted != [] && c.createdAt < sorted[0].createdAt {
      InsertKeepsOrder(c, sorted[1..]);
      var r := InsertNewestFirst(c, sorted[1..]);
      forall j | 0 <= j < |r|
        ensures r[j].createdAt <= sorted[0].createdAt
      {
        assert r[j] in multiset(r);
        if r[j] != c {
          assert r[j] in multiset(sorted[1..]);
          var k :| 0 <= k < |sorted[1..]| && sorted[1..][k] == r[j];
          assert sorted[k + 1] == r[j];
        }
      }
    }
  }

  /** Cards come out newest first. */
  lemma {:induction false} NewestFirstIsOrdered(cards: seq<Card>)
    ensures NewestFirstOrdered(NewestFirst(cards))
  {
    if cards != [] {
      NewestFirstIsOrdered(cards[1..]);
      InsertKeepsOrder(cards[0], NewestFirst(cards[1..]));
    }
  }

  /** The cards of `cards` created at `t`, in order. */
  function CreatedAt(cards: seq<Card>, t: int): seq<Card> {
    if cards == [] then []
    else (if cards[0].createdAt == t then [cards[0]] else []) + CreatedAt(cards[1..], t)
  }

  lemma {:induction false} InsertIsStable(c: Card, sorted: seq<Card>, t: int)
    ensures CreatedAt(InsertNewestFirst(c, sorted), t) ==
      (if c.createdAt == t then [c] else []) + CreatedAt(sorted, t)
  {
    if sorted != [] && c.createdAt < sorted[0].createdAt {
      InsertIsStable(c, sorted[1..], t);
      assert ([sorted[0]] + InsertNewestFirst(c, sorted[1..]))[1..] == InsertNewestFirst(c, sorted[1..]);
    } else {
      assert ([c] + sorted)[1..] == sorted;
    }
  }

  /** The sort is stable: cards created at the same moment keep their relative order. */
  lemma {:induction false} NewestFirstIsStable(cards: seq<Card>, t: int)
    ensures CreatedAt(NewestFirst(cards), t) == CreatedAt(cards, t)
  {
    if cards != [] {
      NewestFirstIsStable(cards[1..], t);
      InsertIsStable(cards[0], NewestFirst(cards[1..]), t);
    }
  }
}
