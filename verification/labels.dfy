/** A C# nullable value (`T?`): either no value or a value. */
module Wrappers {
  datatype Nullable<T> = Null | Value(value: T) {
    /** The `??` operator: the value, or `default` when there is none. */
    function OrElse(default: T): T {
      match this
      case Null => default
      case Value(v) => v
    }
  }
}

/** Facts about sequences shared by the modules below. */
module Seqs {
  lemma AppendAssociates<T>(a: seq<T>, b: seq<T>, c: seq<T>)
    ensures (a + b) + c == a + (b + c)
  {
  }
}

/**
 The label classifier: board labels are either status labels (their name
 starts with "status:") or service labels (everything else), and a status
 label's name carries a severity.
 */
module Labels {
  import opened Wrappers

  /** The four severities, in declaration order. */
  datatype Severity = None | DegradedPerformance | MinorOutage | MajorOutage

  /** The colours a board label can carry. */
  datatype LabelColor = Green | Yellow | Orange | Red | Purple | Blue | Sky | Lime | Pink | Black

  datatype Label = Label(id: string, name: string, color: Nullable<LabelColor>)

  const StatusPrefix: string := "status:"

  /** Ordinal prefix test. */
  predicate StartsWith(s: string, prefix: string) {
    |prefix| <= |s| && s[..|prefix|] == prefix
  }

  predicate IsStatusLabel(l: Label) {
    StartsWith(l.name, StatusPrefix)
  }

  /** The labels whose name does not start with the status prefix, in board order. */
  function ServiceLabels(labels: seq<Label>): (r: seq<Label>)
    ensures |r| <= |labels|
    ensures forall l :: l in r <==> l in labels && !IsStatusLabel(l)
  {
    if labels == [] then []
    else (if IsStatusLabel(labels[0]) then [] else [labels[0]]) + ServiceLabels(labels[1..])
  }

  /** The labels whose name starts with the status prefix, in board order. */
  function StatusLabels(labels: seq<Label>): (r: seq<Label>)
    ensures |r| <= |labels|
    ensures forall l :: l in r <==> l in labels && IsStatusLabel(l)
    ensures forall i :: 0 <= i < |r| ==> IsStatusLabel(r[i])
  {
    if labels == [] then []
    else (if IsStatusLabel(labels[0]) then [labels[0]] else []) + StatusLabels(labels[1..])
  }

  /** The ids of the given labels, in order. */
  function Ids(labels: seq<Label>): (r: seq<string>)
    ensures |r| == |labels|
    ensures forall i :: 0 <= i < |labels| ==> r[i] == labels[i].id
  {
    if labels == [] then [] else [labels[0].id] + Ids(labels[1..])
  }

  /** The names of the given labels, in order. */
  function Names(labels: seq<Label>): (r: seq<string>)
    ensures |r| == |labels|
    ensures forall i :: 0 <= i < |labels| ==> r[i] == labels[i].name
  {
    if labels == [] then [] else [labels[0].name] + Names(labels[1..])
  }

  /** The ids of the service labels. */
  function ServiceIds(labels: seq<Label>): (r: seq<string>)
    ensures forall id :: id in r <==> exists l :: l in labels && !IsStatusLabel(l) && l.id == id
  {
    var service := ServiceLabels(labels);
    var r := Ids(service);
    assert forall id :: id in r ==> exists k :: 0 <= k < |service| && service[k].id == id;
    r
  }

  /** The labels of `labels` that are not members of `excluded`, in order. */
  function Without(labels: seq<Label>, excluded: seq<Label>): seq<Label>
  {
    if labels == [] then []
    else (if labels[0] in excluded then [] else [labels[0]]) + Without(labels[1..], excluded)
  }

  /** The status types: every board label that is not one of the service labels. */
  function StatusTypes(labels: seq<Label>): seq<Label>
  {
    Without(labels, ServiceLabels(labels))
  }

  /**
   Taking the complement of the service labels gives exactly the labels with
   the status prefix, in the same order.
   */
  lemma StatusTypesAreStatusLabels(labels: seq<Label>)
    ensures StatusTypes(labels) == StatusLabels(labels)
  {
    WithoutServiceLabels(labels, ServiceLabels(labels));
  }

  lemma {:induction false} WithoutServiceLabels(labels: seq<Label>, service: seq<Label>)
    requires forall l :: l in labels ==> (l in service <==> !IsStatusLabel(l))
    ensures Without(labels, service) == StatusLabels(labels)
  {
    if labels != [] {
      WithoutServiceLabels(labels[1..], service);
    }
  }

  /** Every label is a service label or a status label, and never both. */
  lemma {:induction false} LabelPartition(labels: seq<Label>)
    ensures multiset(ServiceLabels(labels)) + multiset(StatusLabels(labels)) == multiset(labels)
    ensures |ServiceLabels(labels)| + |StatusLabels(labels)| == |labels|
  {
    if labels != [] {
      LabelPartition(labels[1..]);
      assert labels == [labels[0]] + labels[1..];
    }
  }

  /** String.Replace(" ", ""): every U+0020 removed, all other characters kept in order. */
  function RemoveSpaces(s: string): (r: string)
    ensures |r| <= |s|
    ensures ' ' !in r
    ensures forall c :: c in r <==> c in s && c != ' '
  {
    if s == [] then []
    else
      assert s == [s[0]] + s[1..];
      RemoveSpacesHead(s[0]) + RemoveSpaces(s[1..])
  }

  function RemoveSpacesHead(c: char): string {
    if c == ' ' then [] else [c]
  }

  /** Removing spaces keeps every other character as often as it occurs: only the spaces go. */
  lemma {:induction false} RemoveSpacesCounts(s: string)
    ensures multiset(RemoveSpaces(s)) == multiset(s)[' ' := 0]
  {
    if s != [] {
      RemoveSpacesCounts(s[1..]);
      assert s == [s[0]] + s[1..];
      assert multiset(s) == multiset{s[0]} + multiset(s[1..]);
    }
  }

  /** A text without spaces is left as it is (so removing spaces twice changes nothing). */
  lemma {:induction false} RemoveSpacesKeepsSpaceless(s: string)
    requires ' ' !in s
    ensures RemoveSpaces(s) == s
  {
    if s != [] {
      RemoveSpacesKeepsSpaceless(s[1..]);
    }
  }

  /** What follows the status prefix, with the spaces removed. */
  function StatusSuffix(name: string): string
    requires StartsWith(name, StatusPrefix)
  {
    RemoveSpaces(name[|StatusPrefix|..])
  }

  /** ASCII lower-casing of one character. */
  function LowerChar(c: char): char {
    if 'A' <= c <= 'Z' then (c as int + 32) as char else c
  }

  /** ASCII lower-casing of a string. */
  function FoldCase(s: string): string {
    seq(|s|, i requires 0 <= i < |s| => LowerChar(s[i]))
  }

  /** The member name of each severity. */
  function SeverityName(s: Severity): string {
    match s
    case None => "None"
    case DegradedPerformance => "DegradedPerformance"
    case MinorOutage => "MinorOutage"
    case MajorOutage => "MajorOutage"
  }

  /** The outcome of a case-insensitive enum parse. */
  datatype ParseResult = Parsed(severity: Severity) | Unparseable

  /** Case-insensitive match of `text` against the four member names. */
  function ParseSeverity(text: string): ParseResult {
    var t := FoldCase(text);
    if t == "none" then Parsed(Severity.None)
    else if t == "degradedperformance" then Parsed(DegradedPerformance)
    else if t == "minoroutage" then Parsed(MinorOutage)
    else if t == "majoroutage" then Parsed(MajorOutage)
    else Unparseable
  }

  lemma FoldedNames()
    ensures FoldCase(SeverityName(Severity.None)) == "none"
    ensures FoldCase(SeverityName(DegradedPerformance)) == "degradedperformance"
    ensures FoldCase(SeverityName(MinorOutage)) == "minoroutage"
    ensures FoldCase(SeverityName(MajorOutage)) == "majoroutage"
  {
  }

  /**
   A text parses to a severity exactly when it equals that severity's member
   name up to case; a text that equals no member name up to case does not
   parse; and a text parses like its lower-cased form.
   */
  lemma ParseSeverityMatchesNames(text: string, s: Severity)
    ensures ParseSeverity(text) == Parsed(s) <==> FoldCase(text) == FoldCase(SeverityName(s))
    ensures ParseSeverity(text) == Unparseable <==>
      forall t: Severity :: FoldCase(text) != FoldCase(SeverityName(t))
    ensures ParseSeverity(FoldCase(text)) == ParseSeverity(text)
  {
    FoldedNames();
    FoldCaseIdempotent(text);
    assert SeverityName(Severity.None) == "None";
    assert SeverityName(DegradedPerformance) == "DegradedPerformance";
    assert SeverityName(MinorOutage) == "MinorOutage";
    assert SeverityName(MajorOutage) == "MajorOutage";
  }

  lemma FoldCaseIdempotent(s: string)
    ensures FoldCase(FoldCase(s)) == FoldCase(s)
  {
  }

  lemma {:induction false} RemoveSpacesAppend(a: string, b: string)
    ensures RemoveSpaces(a + b) == RemoveSpaces(a) + RemoveSpaces(b)
  {
    if a == [] {
      assert a + b == b;
    } else {
      var ab := a + b;
      assert ab[0] == a[0];
      assert ab[1..] == a[1..] + b;
      RemoveSpacesAppend(a[1..], b);
      var h := RemoveSpacesHead(a[0]);
      assert RemoveSpaces(ab) == h + RemoveSpaces(a[1..] + b);
      assert RemoveSpaces(a) == h + RemoveSpaces(a[1..]);
      assert h + (RemoveSpaces(a[1..]) + RemoveSpaces(b)) == (h + RemoveSpaces(a[1..])) + RemoveSpaces(b);
    }
  }

  /** A status label with one space after the prefix has the word that follows as its suffix. */
  lemma SpacedSuffix(word: string)
    requires ' ' !in word
    ensures StartsWith(StatusPrefix + " " + word, StatusPrefix)
    ensures StatusSuffix(StatusPrefix + " " + word) == word
  {
    var name := StatusPrefix + " " + word;
    assert name[..|StatusPrefix|] == StatusPrefix;
    assert name[|StatusPrefix|..] == " " + word;
    RemoveSpacesAppend(" ", word);
    assert RemoveSpaces(" ") == [];
    RemoveSpacesKeepsSpaceless(word);
  }

  /** A status label with a space after the prefix parses to its severity. */
  lemma SpacedStatusLabelExample()
    ensures ParseSeverity(StatusSuffix("status: MinorOutage")) == Parsed(MinorOutage)
  {
    assert "status: MinorOutage" == StatusPrefix + " " + "MinorOutage";
    SpacedSuffix("MinorOutage");
    ParseSeverityMatchesNames("MinorOutage", MinorOutage);
  }

  /** A status label naming no severity does not parse. */
  lemma UnknownStatusLabelExample()
    ensures ParseSeverity(StatusSuffix("status: down")) == Unparseable
  {
    assert FoldCase("down") == "down" by {
      assert forall i :: 0 <= i < 4 ==> 'a' <= "down"[i] <= 'z';
    }
    assert "status: down" == StatusPrefix + " " + "down";
    SpacedSuffix("down");
  }
}
