/**
 * The numbers and the "last touched" line of a project card: wall count, total
 * run length, the $5-per-foot estimate, each stat's colour, and the relative
 * time label.
 */
module ProjectCard {
  import opened ApiTypes
  import opened Text

  /** `walls.reduce((sum, w) => sum + w.length, 0)`, folding from the left. */
  function TotalLength(walls: seq<Wall>): real
  {
    if walls == [] then 0.0 else TotalLength(walls[..|walls| - 1]) + walls[|walls| - 1].length
  }

  /** The total length of walls put one after another is the sum of the parts. */
  lemma {:induction false} TotalLengthAppend(a: seq<Wall>, b: seq<Wall>)
    ensures TotalLength(a + b) == TotalLength(a) + TotalLength(b)
    decreases |b|
  {
    if b != [] {
      assert (a + b)[..|a + b| - 1] == a + b[..|b| - 1];
      TotalLengthAppend(a, b[..|b| - 1]);
    } else {
      assert a + b == a;
    }
  }

  /** Walls of non-negative length have a non-negative total, positive exactly
      when some wall has a positive length. */
  lemma {:induction false} TotalLengthSign(walls: seq<Wall>)
    requires forall k :: 0 <= k < |walls| ==> walls[k].length >= 0.0
    ensures TotalLength(walls) >= 0.0
    ensures TotalLength(walls) > 0.0 <==> exists k :: 0 <= k < |walls| && walls[k].length > 0.0
  {
    if walls != [] {
      var init := walls[..|walls| - 1];
      TotalLengthSign(init);
      assert forall k :: 0 <= k < |init| ==> init[k] == walls[k];
      if TotalLength(init) > 0.0 {
        var k :| 0 <= k < |init| && init[k].length > 0.0;
        assert walls[k].length > 0.0;
      }
    }
  }

  datatype StatColor = Blue | Green | Purple | Gray

  /** The three stats of a card and their colours. */
  datatype CardStats = CardStats(
    wallCount: nat,
    totalLength: real,
    estimatedCost: real,
    wallsColor: StatColor,
    lengthColor: StatColor,
    costColor: StatColor
  )

  /** Five dollars per foot of wall. */
  const CostPerFoot: real := 5.0

  function Stats(p: Project): CardStats {
    var wallCount := |p.walls|;
    var totalLength := TotalLength(p.walls);
    var estimatedCost := totalLength * CostPerFoot;
    CardStats(wallCount, totalLength, estimatedCost,
              if wallCount > 0 then Blue else Gray,
              if totalLength > 0.0 then Green else Gray,
              if estimatedCost > 0.0 then Purple else Gray)
  }

  /** The estimate is five times the total length; each stat is grey exactly
      when its value is not above zero, and the length and cost stats are grey
      together. */
  lemma StatsColours(p: Project)
    ensures var s := Stats(p);
            && s.wallCount == |p.walls|
            && s.estimatedCost == 5.0 * s.totalLength
            && (s.wallsColor == Gray <==> !(s.wallCount > 0))
            && (s.lengthColor == Gray <==> !(s.totalLength > 0.0))
            && (s.costColor == Gray <==> !(s.estimatedCost > 0.0))
            && (s.lengthColor == Gray <==> s.costColor == Gray)
  {
  }

  /** A project whose walls all have positive length shows grey stats exactly
      when it has no walls. */
  lemma StatsGreyIffNoWalls(p: Project)
    requires forall k :: 0 <= k < |p.walls| ==> p.walls[k].length > 0.0
    ensures Stats(p).wallsColor == Gray <==> p.walls == []
    ensures Stats(p).lengthColor == Gray <==> p.walls == []
    ensures Stats(p).costColor == Gray <==> p.walls == []
  {
    TotalLengthSign(p.walls);
    if p.walls != [] {
      assert p.walls[0].length > 0.0;
    }
  }

  /** How long ago a timestamp was, as `formatRelativeTime` buckets it. */
  datatype Elapsed = JustNow | MinutesAgo(minutes: int) | HoursAgo(hours: int) | DaysAgo(days: int) | OnDate

  /** Successive floors of the millisecond difference (Dafny's `/` floors for a
      positive divisor), tested in order. */
  function ElapsedOf(diffMs: int): Elapsed {
    var sec := diffMs / 1000;
    var min := sec / 60;
    var hr := min / 60;
    var day := hr / 24;
    if sec < 60 then JustNow
    else if min < 60 then MinutesAgo(min)
    else if hr < 24 then HoursAgo(hr)
    else if day < 7 then DaysAgo(day)
    else OnDate
  }

  /** The buckets in terms of whole milliseconds: under a minute (the future
      included) is "just now", then whole minutes up to 59, whole hours up to
      23, whole days up to 6, and a week or more is a date. */
  lemma ElapsedBuckets(diffMs: int)
    ensures ElapsedOf(diffMs) == JustNow <==> diffMs < 60000
    ensures ElapsedOf(diffMs).MinutesAgo? <==> 60000 <= diffMs < 3600000
    ensures ElapsedOf(diffMs).HoursAgo? <==> 3600000 <= diffMs < 86400000
    ensures ElapsedOf(diffMs).DaysAgo? <==> 86400000 <= diffMs < 604800000
    ensures ElapsedOf(diffMs) == OnDate <==> 604800000 <= diffMs
    ensures ElapsedOf(diffMs).MinutesAgo? ==>
      ElapsedOf(diffMs).minutes == diffMs / 60000 && 1 <= ElapsedOf(diffMs).minutes <= 59
    ensures ElapsedOf(diffMs).HoursAgo? ==>
      ElapsedOf(diffMs).hours == diffMs / 3600000 && 1 <= ElapsedOf(diffMs).hours <= 23
    ensures ElapsedOf(diffMs).DaysAgo? ==>
      ElapsedOf(diffMs).days == diffMs / 86400000 && 1 <= ElapsedOf(diffMs).days <= 6
  {
    assert diffMs / 1000 / 60 == diffMs / 60000;
    assert diffMs / 60000 / 60 == diffMs / 3600000;
    assert diffMs / 3600000 / 24 == diffMs / 86400000;
  }

  /** A rank that orders the buckets from most recent to oldest. */
  function Rank(e: Elapsed): nat {
    match e
    case JustNow => 0
    case MinutesAgo(_) => 1
    case HoursAgo(_) => 2
    case DaysAgo(_) => 3
    case OnDate => 4
  }

  /** An older timestamp never lands in a more recent bucket, nor shows a smaller
      count within the same bucket. */
  lemma ElapsedMonotone(d1: int, d2: int)
    requires d1 <= d2
    ensures Rank(ElapsedOf(d1)) <= Rank(ElapsedOf(d2))
    ensures ElapsedOf(d1).MinutesAgo? && ElapsedOf(d2).MinutesAgo? ==> ElapsedOf(d1).minutes <= ElapsedOf(d2).minutes
    ensures ElapsedOf(d1).HoursAgo? && ElapsedOf(d2).HoursAgo? ==> ElapsedOf(d1).hours <= ElapsedOf(d2).hours
    ensures ElapsedOf(d1).DaysAgo? && ElapsedOf(d2).DaysAgo? ==> ElapsedOf(d1).days <= ElapsedOf(d2).days
  {
    ElapsedBuckets(d1);
    ElapsedBuckets(d2);
  }

  /** `formatRelativeTime`, given the time elapsed and the locale's date text. */
  function FormatRelativeTime(diffMs: int, prefix: string, dateText: string): string {
    match ElapsedOf(diffMs)
    case JustNow => prefix + " just now"
    case MinutesAgo(m) => prefix + " " + IntToString(m) + "m ago"
    case HoursAgo(h) => prefix + " " + IntToString(h) + "h ago"
    case DaysAgo(d) => prefix + " " + IntToString(d) + "d ago"
    case OnDate => prefix + " " + dateText
  }

  /** Examples of the label: a timestamp in the future, 90 seconds, 5 hours and
      8 days back. */
  lemma FormatRelativeTimeExamples(dateText: string)
    ensures FormatRelativeTime(-5000, "Updated", dateText) == "Updated just now"
    ensures FormatRelativeTime(90000, "Updated", dateText) == "Updated 1m ago"
    ensures FormatRelativeTime(5 * 3600000, "Created", dateText) == "Created 5h ago"
    ensures FormatRelativeTime(8 * 86400000, "Created", dateText) == "Created " + dateText
  {
    assert ElapsedOf(90000) == MinutesAgo(1);
    assert IntToString(1) == "1";
    assert ElapsedOf(5 * 3600000) == HoursAgo(5);
    assert IntToString(5) == "5";
  }

  /** Which timestamp a card reports: the update time under "Updated" when it
      is set and non-empty, else the creation time under "Created". */
  function TimeLabel(p: Project, nowMs: int, timeOf: string -> int, dateText: string -> string): string
  {
    if p.updatedAt.Some? && p.updatedAt.value != "" then
      FormatRelativeTime(nowMs - timeOf(p.updatedAt.value), "Updated", dateText(p.updatedAt.value))
    else
      FormatRelativeTime(nowMs - timeOf(p.createdAt), "Created", dateText(p.createdAt))
  }

  /** Every label begins with its prefix. */
  lemma FormatStartsWithPrefix(diffMs: int, prefix: string, dateText: string)
    ensures var r := FormatRelativeTime(diffMs, prefix, dateText);
            |r| >= |prefix| && r[..|prefix|] == prefix
  {
  }

  /** The label starts with "Updated" when the project has a non-empty update
      time, and otherwise with "Created". */
  lemma TimeLabelPrefix(p: Project, nowMs: int, timeOf: string -> int, dateText: string -> string)
    ensures var shown := TimeLabel(p, nowMs, timeOf, dateText);
            var prefix := if p.updatedAt.Some? && p.updatedAt.value != "" then "Updated" else "Created";
            |shown| >= 7 && shown[..7] == prefix
  {
    assert |"Updated"| == 7 && |"Created"| == 7;
    if p.updatedAt.Some? && p.updatedAt.value != "" {
      var t := p.updatedAt.value;
      FormatStartsWithPrefix(nowMs - timeOf(t), "Updated", dateText(t));
    } else {
      FormatStartsWithPrefix(nowMs - timeOf(p.createdAt), "Created", dateText(p.createdAt));
    }
  }
}
