/** The Tirumalla admin's member list: the fetched members narrowed to the
    selected agent, then to a creation-time window. */
module MemberFilter {
  import opened Wrappers

  /** A fetched member: its agent's id and its creation time in
      milliseconds; `None` when `createdAt` does not parse, an invalid date
      that every comparison rejects. */
  datatype Member = Member(agent: string, createdAt: Option<int>)

  /** The date buttons; any other value is `Other`. */
  datatype DateFilter = All | Today | Week | Month | Custom | Other(name: string)

  /** An inclusive window of times. */
  datatype Bounds = Bounds(start: int, end: int)

  const DayMs := 86400000

  /** `startOfDay(new Date(startDate))` to `endOfDay(new Date(endDate))` for
      two day numbers: the first millisecond of the one to the last of the
      other. */
  function CustomBounds(startDay: int, endDay: int): (b: Bounds)
    ensures b.start == startDay * DayMs && b.end == endDay * DayMs + DayMs - 1
  {
    Bounds(startDay * DayMs, endDay * DayMs + DayMs - 1)
  }

  /** `memberDate >= start && memberDate <= end`, where a window left
      undefined, or an invalid date, makes both comparisons false. */
  predicate InWindow(w: Option<Bounds>, m: Member) {
    w.Some? && m.createdAt.Some? && w.value.start <= m.createdAt.value <= w.value.end
  }

  // ---------------------------------------------------------------- filter

  /** `Array.prototype.filter`: the elements that satisfy `p`, in order. */
  function Keep(s: seq<Member>, p: Member -> bool): (r: seq<Member>)
    ensures |r| <= |s|
    ensures forall x :: x in r <==> x in s && p(x)
  {
    if s == [] then [] else (if p(s[0]) then [s[0]] else []) + Keep(s[1..], p)
  }

  /** `r` is `s` with some elements removed, the rest in their order. */
  ghost predicate Subsequence(r: seq<Member>, s: seq<Member>)
    decreases |s|
  {
    if r == [] then true
    else if s == [] then false
    else (r[0] == s[0] && Subsequence(r[1..], s[1..])) || Subsequence(r, s[1..])
  }

  lemma {:induction false} KeepIsSubsequence(s: seq<Member>, p: Member -> bool)
    ensures Subsequence(Keep(s, p), s)
  {
    if s != [] {
      KeepIsSubsequence(s[1..], p);
      if p(s[0]) {
        assert Keep(s, p) == [s[0]] + Keep(s[1..], p);
        assert Keep(s, p)[1..] == Keep(s[1..], p);
      } else {
        assert Keep(s, p) == Keep(s[1..], p);
      }
    }
  }

  /** Filtering by two predicates that agree everywhere gives one list. */
  lemma {:induction false} KeepSame(s: seq<Member>, p: Member -> bool, q: Member -> bool)
    requires forall x :: p(x) == q(x)
    ensures Keep(s, p) == Keep(s, q)
  {
    if s != [] {
      KeepSame(s[1..], p, q);
    }
  }

  /** Two filters in a row keep what both predicates accept. */
  lemma {:induction false} KeepKeep(s: seq<Member>, p: Member -> bool, q: Member -> bool)
    ensures Keep(Keep(s, p), q) == Keep(s, x => p(x) && q(x))
  {
    if s != [] {
      KeepKeep(s[1..], p, q);
      var head := if p(s[0]) then [s[0]] else [];
      assert Keep(s, p) == head + Keep(s[1..], p);
      KeepConcat(head, Keep(s[1..], p), q);
    }
  }

  lemma {:induction false} KeepConcat(a: seq<Member>, b: seq<Member>, q: Member -> bool)
    ensures Keep(a + b, q) == Keep(a, q) + Keep(b, q)
  {
    if a != [] {
      assert (a + b)[1..] == a[1..] + b;
      KeepConcat(a[1..], b, q);
    } else {
      assert a + b == b;
    }
  }

  lemma {:induction false} KeepAll(s: seq<Member>, p: Member -> bool)
    requires forall x :: x in s ==> p(x)
    ensures Keep(s, p) == s
  {
    if s != [] {
      KeepAll(s[1..], p);
    }
  }

  // ---------------------------------------------------------------- query

  /** The state the member query is keyed on. */
  datatype View = View(selectedAgentId: string, dateFilter: DateFilter,
                       startDate: Option<int>, endDate: Option<int>)

  /** The window the query compares against; `preset` is what date-fns gives
      for today, this week or this month at the time of the query. `None`
      for 'all' and unknown values (no date filtering) and for 'custom' with
      a date missing. */
  function WindowOf(v: View, preset: Bounds): Option<Bounds> {
    match v.dateFilter
    case Today => Some(preset)
    case Week => Some(preset)
    case Month => Some(preset)
    case Custom =>
      if v.startDate.Some? && v.endDate.Some? then Some(CustomBounds(v.startDate.value, v.endDate.value)) else None
    case _ => None
  }

  /** A filter value makes the query compare dates. */
  predicate FiltersDates(f: DateFilter) {
    f.Today? || f.Week? || f.Month? || f.Custom?
  }

  /** Which fetched members the list shows: those of the selected agent (any,
      when none is selected) that fall inside the window when dates are
      filtered. */
  predicate Listed(v: View, preset: Bounds, m: Member) {
    && (v.selectedAgentId == "" || m.agent == v.selectedAgentId)
    && (FiltersDates(v.dateFilter) ==> InWindow(WindowOf(v, preset), m))
  }

  /** The three filters as predicates on a member. */
  function OfAgent(id: string): Member -> bool {
    (m: Member) => m.agent == id
  }

  function Within(w: Option<Bounds>): Member -> bool {
    m => InWindow(w, m)
  }

  function ListedBy(v: View, preset: Bounds): Member -> bool {
    m => Listed(v, preset, m)
  }

  /** The agent filter as the query applies it: none when no agent is
      selected. */
  function AgentOrAny(id: string): Member -> bool {
    (m: Member) => id == "" || m.agent == id
  }

  lemma AgentStep(fetched: seq<Member>, id: string)
    ensures (if id != "" then Keep(fetched, OfAgent(id)) else fetched) == Keep(fetched, AgentOrAny(id))
  {
    if id != "" {
      KeepSame(fetched, OfAgent(id), AgentOrAny(id));
    } else {
      KeepAll(fetched, AgentOrAny(id));
    }
  }

  lemma DateStep(fetched: seq<Member>, v: View, preset: Bounds)
    requires FiltersDates(v.dateFilter)
    ensures Keep(Keep(fetched, AgentOrAny(v.selectedAgentId)), Within(WindowOf(v, preset))) == Keep(fetched, ListedBy(v, preset))
  {
    var p, q := AgentOrAny(v.selectedAgentId), Within(WindowOf(v, preset));
    KeepKeep(fetched, p, q);
    KeepSame(fetched, x => p(x) && q(x), ListedBy(v, preset));
  }

  lemma NoDateStep(fetched: seq<Member>, v: View, preset: Bounds)
    requires !FiltersDates(v.dateFilter)
    ensures Keep(fetched, AgentOrAny(v.selectedAgentId)) == Keep(fetched, ListedBy(v, preset))
  {
    KeepSame(fetched, AgentOrAny(v.selectedAgentId), ListedBy(v, preset));
  }

  /** The members `queryFn` returns, filter after filter. */
  method MembersQuery(fetched: seq<Member>, v: View, preset: Bounds) returns (shown: seq<Member>)
    ensures shown == Keep(fetched, ListedBy(v, preset))
    ensures Subsequence(shown, fetched)
  {
    KeepIsSubsequence(fetched, ListedBy(v, preset));
    AgentStep(fetched, v.selectedAgentId);
    var all := fetched;
    if v.selectedAgentId != "" {
      all := Keep(all, OfAgent(v.selectedAgentId));
    }
    if v.dateFilter != All {
      if !FiltersDates(v.dateFilter) {
        NoDateStep(fetched, v, preset);
        return all;
      }
      var w := WindowOf(v, preset);
      all := Keep(all, Within(w));
      DateStep(fetched, v, preset);
    } else {
      NoDateStep(fetched, v, preset);
    }
    shown := all;
  }

  /** With no agent selected and the filter 'all', the list is the fetched
      one. */
  lemma NoFilterKeepsAll(fetched: seq<Member>, v: View, preset: Bounds)
    requires v.selectedAgentId == "" && v.dateFilter == All
    ensures Keep(fetched, ListedBy(v, preset)) == fetched
  {
    KeepAll(fetched, ListedBy(v, preset));
  }

  /** 'custom' with a date left blank shows nobody. */
  lemma CustomWithoutDatesIsEmpty(fetched: seq<Member>, v: View, preset: Bounds)
    requires v.dateFilter == Custom && (v.startDate.None? || v.endDate.None?)
    ensures Keep(fetched, ListedBy(v, preset)) == []
  {
  }

  /** An unknown filter value applies the agent filter only. */
  lemma UnknownFilterIgnoresDates(fetched: seq<Member>, v: View, preset: Bounds)
    requires v.dateFilter.Other?
    ensures Keep(fetched, ListedBy(v, preset)) == Keep(fetched, ListedBy(v.(dateFilter := All), preset))
  {
    KeepSame(fetched, ListedBy(v, preset), ListedBy(v.(dateFilter := All), preset));
  }

  /** A member shown under a custom window was created between the first
      millisecond of the start day and the last of the end day. */
  lemma CustomWindowInclusive(v: View, preset: Bounds, m: Member)
    requires v.dateFilter == Custom && v.startDate.Some? && v.endDate.Some? && m.createdAt.Some?
    ensures Listed(v, preset, m) <==>
      && (v.selectedAgentId == "" || m.agent == v.selectedAgentId)
      && v.startDate.value * DayMs <= m.createdAt.value < (v.endDate.value + 1) * DayMs
  {
  }

  // ---------------------------------------------------------------- view

  /** The dashboard's filter state. */
  class Dashboard {
    var selectedAgentId: string
    var dateFilter: DateFilter
    var startDate: Option<int>
    var endDate: Option<int>

    constructor ()
      ensures selectedAgentId == "" && dateFilter == All && startDate.None? && endDate.None?
    {
      selectedAgentId := "";
      dateFilter := All;
      startDate := None;
      endDate := None;
    }

    function CurrentView(): View
      reads this
    {
      View(selectedAgentId, dateFilter, startDate, endDate)
    }

    /** The members query run on the current filter state. */
    method Members(fetched: seq<Member>, preset: Bounds) returns (shown: seq<Member>)
      ensures shown == Keep(fetched, ListedBy(CurrentView(), preset))
      ensures forall m :: m in shown <==> m in fetched && Listed(CurrentView(), preset, m)
    {
      shown := MembersQuery(fetched, CurrentView(), preset);
    }

    /** `handleAgentChange` */
    method SelectAgent(id: string)
      modifies this`selectedAgentId
      ensures selectedAgentId == id
    {
      selectedAgentId := id;
    }

    /** `handleDateFilterChange`: any choice except 'custom' blanks both
        dates; 'custom' keeps them. */
    method ChangeDateFilter(f: DateFilter)
      modifies this`dateFilter, this`startDate, this`endDate
      ensures dateFilter == f
      ensures f != Custom ==> startDate.None? && endDate.None?
      ensures f == Custom ==> startDate == old(startDate) && endDate == old(endDate)
    {
      dateFilter := f;
      if f != Custom {
        startDate := None;
        endDate := None;
      }
    }

    /** The custom date inputs. */
    method SetDates(start: Option<int>, end: Option<int>)
      modifies this`startDate, this`endDate
      ensures startDate == start && endDate == end
    {
      startDate := start;
      endDate := end;
    }
  }
}
