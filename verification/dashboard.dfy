/** The dashboard's queries over the store's collection: the filtered list the
    view shows (search, status and priority filters) and the counts by status. */
module Dashboard {
  import opened Seqs
  import opened TaskService

  const AllStatus := "All Status"
  const AllPriorities := "All Priorities"
  const StatusOptions := [AllStatus, "pending", "in-progress", "completed"]
  /** The priority choices exactly as the dashboard lists them. */
  const PriorityOptions := [AllPriorities, "low", "medium", "high"]
  /** The priority choices in the label form the rest of the application
      stores. */
  const LabelPriorityOptions := [AllPriorities, "Low Priority", "Medium Priority", "High Priority"]

  /** The component's three filter fields, as the view last set them. */
  datatype Filters = Filters(searchTerm: string, selectedStatus: string, selectedPriority: string)

  /** The fields' initial values: nothing is filtered. */
  const InitialFilters := Filters("", AllStatus, AllPriorities)

  // ---------------------------------------------------------------------------
  // Case-insensitive search

  /** `toLowerCase` on one character, for ASCII letters. */
  function LowerChar(c: char): (r: char)
    ensures !('A' <= r <= 'Z')
    ensures 'A' <= c <= 'Z' ==> r as int == c as int + 32
    ensures !('A' <= c <= 'Z') ==> r == c
  {
    if 'A' <= c <= 'Z' then (c as int - 'A' as int + 'a' as int) as char else c
  }

  /** `toLowerCase` on a string: same length, every character lower-cased,
      no upper-case ASCII letter left. */
  function ToLower(s: string): (r: string)
    ensures |r| == |s|
    ensures forall i :: 0 <= i < |s| ==> r[i] == LowerChar(s[i])
    ensures forall i :: 0 <= i < |r| ==> !('A' <= r[i] <= 'Z')
  {
    Map(LowerChar, s)
  }

  /** `needle` occurs in `hay` starting at position `i`. */
  ghost predicate OccursAt(needle: string, hay: string, i: int) {
    0 <= i && i + |needle| <= |hay| && hay[i..i + |needle|] == needle
  }

  /** `needle` occurs in `hay` at some position. */
  ghost predicate IsSubstring(needle: string, hay: string) {
    exists i :: OccursAt(needle, hay, i)
  }

  /** When `needle` does not start `hay`, it occurs in `hay` exactly when it
      occurs in `hay` without its first character. */
  lemma OccursLater(hay: string, needle: string)
    requires |needle| <= |hay| && hay[..|needle|] != needle
    ensures IsSubstring(needle, hay) <==> IsSubstring(needle, hay[1..])
  {
    if IsSubstring(needle, hay) {
      var i :| OccursAt(needle, hay, i);
      assert i != 0;
      assert hay[1..][i - 1..i - 1 + |needle|] == needle;
      assert OccursAt(needle, hay[1..], i - 1);
    }
    if IsSubstring(needle, hay[1..]) {
      var i :| OccursAt(needle, hay[1..], i);
      assert hay[i + 1..i + 1 + |needle|] == needle;
      assert OccursAt(needle, hay, i + 1);
    }
  }

  /** `hay.includes(needle)`: scans `hay` for a position where `needle`
      starts; true exactly when `needle` occurs somewhere in `hay`. */
  function Includes(hay: string, needle: string): (r: bool)
    ensures r <==> IsSubstring(needle, hay)
    decreases |hay|
  {
    if |needle| > |hay| then false
    else if hay[..|needle|] == needle then
      assert OccursAt(needle, hay, 0);
      true
    else
      OccursLater(hay, needle);
      Includes(hay[1..], needle)
  }

  /** Lower-casing twice is lower-casing once. */
  lemma ToLowerIdempotent(s: string)
    ensures ToLower(ToLower(s)) == ToLower(s)
  {
    assert forall i :: 0 <= i < |s| ==> ToLower(ToLower(s))[i] == ToLower(s)[i];
  }

  /** A substring stays a substring once both sides are lower-cased. */
  lemma ToLowerKeepsSubstring(needle: string, hay: string)
    requires IsSubstring(needle, hay)
    ensures IsSubstring(ToLower(needle), ToLower(hay))
  {
    var i :| OccursAt(needle, hay, i);
    var lh := ToLower(hay);
    var ln := ToLower(needle);
    forall k | 0 <= k < |needle| ensures lh[i..i + |needle|][k] == ln[k] {
      assert hay[i..i + |needle|][k] == hay[i + k];
    }
    assert lh[i..i + |needle|] == ln;
    assert OccursAt(ln, lh, i);
  }

  /** The search predicate: the lower-cased term occurs in the lower-cased
      title or the lower-cased description. The empty term matches every task. */
  predicate MatchesSearch(t: Task, term: string)
    ensures MatchesSearch(t, term) <==>
      IsSubstring(ToLower(term), ToLower(t.title)) || IsSubstring(ToLower(term), ToLower(t.description))
    ensures term == "" ==> MatchesSearch(t, term)
  {
    var q := ToLower(term);
    assert term == "" ==> OccursAt(q, ToLower(t.title), 0);
    Includes(ToLower(t.title), q) || Includes(ToLower(t.description), q)
  }

  /** The case of the term does not matter, and a task whose title or
      description contains the term as typed is found. */
  lemma MatchesSearchMeaning(t: Task, term: string)
    ensures MatchesSearch(t, ToLower(term)) == MatchesSearch(t, term)
    ensures IsSubstring(term, t.title) || IsSubstring(term, t.description) ==> MatchesSearch(t, term)
  {
    ToLowerIdempotent(term);
    if IsSubstring(term, t.title) {
      ToLowerKeepsSubstring(term, t.title);
    }
    if IsSubstring(term, t.description) {
      ToLowerKeepsSubstring(term, t.description);
    }
  }

  // ---------------------------------------------------------------------------
  // The filtered list

  function SearchFilter(term: string): Task -> bool {
    (t: Task) => MatchesSearch(t, term)
  }

  function StatusFilter(status: string): Task -> bool {
    (t: Task) => t.status == status
  }

  function PriorityFilter(priority: string): Task -> bool {
    (t: Task) => t.priority == priority
  }

  /** A task passes every filter that is switched on. */
  predicate Passes(t: Task, f: Filters) {
    (f.searchTerm == "" || MatchesSearch(t, f.searchTerm)) &&
    (f.selectedStatus == AllStatus || t.status == f.selectedStatus) &&
    (f.selectedPriority == AllPriorities || t.priority == f.selectedPriority)
  }

  /** `filteredTasks`: the search filter when a term is entered, then the
      status filter unless "All Status", then the priority filter unless
      "All Priorities". */
  function FilteredTasks(ts: seq<Task>, f: Filters): (r: seq<Task>)
    ensures |r| <= |ts|
    ensures forall t :: t in r ==> t in ts && Passes(t, f)
    ensures forall t :: t in ts && Passes(t, f) ==> multiset(r)[t] == multiset(ts)[t]
  {
    var bySearch := if f.searchTerm != "" then Filter(SearchFilter(f.searchTerm), ts) else ts;
    var byStatus := if f.selectedStatus != AllStatus then Filter(StatusFilter(f.selectedStatus), bySearch) else bySearch;
    if f.selectedPriority != AllPriorities then Filter(PriorityFilter(f.selectedPriority), byStatus) else byStatus
  }

  function Accepts(f: Filters): Task -> bool {
    (t: Task) => Passes(t, f)
  }

  /** The three filters in a row are one filter by their conjunction. */
  lemma FilteredIsOneFilter(ts: seq<Task>, f: Filters)
    ensures FilteredTasks(ts, f) == Filter(Accepts(f), ts)
  {
    var p1 := (t: Task) => f.searchTerm == "" || MatchesSearch(t, f.searchTerm);
    var p2 := (t: Task) => p1(t) && (f.selectedStatus == AllStatus || t.status == f.selectedStatus);
    var bySearch := if f.searchTerm != "" then Filter(SearchFilter(f.searchTerm), ts) else ts;
    if f.searchTerm != "" {
      FilterExt(SearchFilter(f.searchTerm), p1, ts);
    } else {
      FilterKeepsAll(p1, ts);
    }
    assert bySearch == Filter(p1, ts);
    var byStatus := if f.selectedStatus != AllStatus then Filter(StatusFilter(f.selectedStatus), bySearch) else bySearch;
    if f.selectedStatus != AllStatus {
      FilterFilter(p1, StatusFilter(f.selectedStatus), p2, ts);
    } else {
      FilterExt(p1, p2, ts);
    }
    assert byStatus == Filter(p2, ts);
    if f.selectedPriority != AllPriorities {
      FilterFilter(p2, PriorityFilter(f.selectedPriority), Accepts(f), ts);
    } else {
      FilterExt(p2, Accepts(f), ts);
    }
  }

  /** The filtered list keeps tasks of the collection in their relative order. */
  lemma FilteredIsSubsequence(ts: seq<Task>, f: Filters)
    ensures IsSubseq(FilteredTasks(ts, f), ts)
  {
    FilteredIsOneFilter(ts, f);
  }

  /** Every listed task passes the status, priority and search filters that
      are switched on. */
  lemma FilteredSound(ts: seq<Task>, f: Filters)
    ensures forall t :: t in FilteredTasks(ts, f) ==> t in ts
    ensures f.selectedStatus != AllStatus ==>
      forall t :: t in FilteredTasks(ts, f) ==> t.status == f.selectedStatus
    ensures f.selectedPriority != AllPriorities ==>
      forall t :: t in FilteredTasks(ts, f) ==> t.priority == f.selectedPriority
    ensures f.searchTerm != "" ==>
      forall t :: t in FilteredTasks(ts, f) ==>
        IsSubstring(ToLower(f.searchTerm), ToLower(t.title)) ||
        IsSubstring(ToLower(f.searchTerm), ToLower(t.description))
  {
    FilteredIsOneFilter(ts, f);
    forall t | t in FilteredTasks(ts, f)
      ensures Passes(t, f)
    {
      assert Accepts(f)(t);
    }
  }

  /** Every task that passes the filters that are switched on is listed, as
      often as it occurs in the collection. */
  lemma FilteredComplete(ts: seq<Task>, f: Filters)
    ensures forall t :: t in ts && Passes(t, f) ==>
      t in FilteredTasks(ts, f) && multiset(FilteredTasks(ts, f))[t] == multiset(ts)[t]
  {
    FilteredIsOneFilter(ts, f);
    forall t | t in ts && Passes(t, f)
      ensures multiset(FilteredTasks(ts, f))[t] == multiset(ts)[t]
    {
      assert Accepts(f)(t);
    }
  }

  /** With no term and both choices at "All", the whole collection is listed;
      more generally nothing is dropped when every task passes. */
  lemma FilteredKeepsAll(ts: seq<Task>, f: Filters)
    ensures FilteredTasks(ts, InitialFilters) == ts
    ensures (forall t :: t in ts ==> Passes(t, f)) ==> FilteredTasks(ts, f) == ts
  {
    FilteredIsOneFilter(ts, f);
    FilterKeepsAll(Accepts(f), ts);
  }

  // ---------------------------------------------------------------------------
  // Statistics

  /** `tasks().filter(task => task.status === status).length`: how many
      tasks have the status, at most the total, zero exactly when none has it
      and the total exactly when all have it. */
  function CountWithStatus(ts: seq<Task>, status: string): (n: nat)
    ensures n <= |ts|
    ensures n == 0 <==> forall t :: t in ts ==> t.status != status
    ensures n == |ts| <==> forall t :: t in ts ==> t.status == status
  {
    var r := Filter(StatusFilter(status), ts);
    FilterKeepsAll(StatusFilter(status), ts);
    assert r != [] ==> r[0] in r;
    assert forall t :: t in ts && t.status == status ==> multiset(r)[t] > 0;
    |r|
  }

  /** `totalTasks`: the number of tasks, bounding every status count. */
  function TotalTasks(ts: seq<Task>): (n: nat)
    ensures forall status :: CountWithStatus(ts, status) <= n
  {
    |ts|
  }

  /** `pendingTasks`: zero exactly when no task is pending. */
  function PendingTasks(ts: seq<Task>): (n: nat)
    ensures n <= |ts|
    ensures n == 0 <==> forall t :: t in ts ==> t.status != "pending"
  {
    CountWithStatus(ts, "pending")
  }

  /** `inProgressTasks`: zero exactly when no task is in progress. */
  function InProgressTasks(ts: seq<Task>): (n: nat)
    ensures n <= |ts|
    ensures n == 0 <==> forall t :: t in ts ==> t.status != "in-progress"
  {
    CountWithStatus(ts, "in-progress")
  }

  /** `completedTasks`: zero exactly when no task is completed. */
  function CompletedTasks(ts: seq<Task>): (n: nat)
    ensures n <= |ts|
    ensures n == 0 <==> forall t :: t in ts ==> t.status != "completed"
  {
    CountWithStatus(ts, "completed")
  }

  predicate IsKnownStatus(s: string) {
    s == "pending" || s == "in-progress" || s == "completed"
  }

  /** The status choices are "All Status" followed by exactly the three
      statuses the dashboard counts. */
  lemma StatusOptionsAreKnown()
    ensures StatusOptions[0] == AllStatus && !IsKnownStatus(AllStatus)
    ensures forall k :: 1 <= k < |StatusOptions| ==> IsKnownStatus(StatusOptions[k])
    ensures forall s :: IsKnownStatus(s) ==> s in StatusOptions[1..]
  {
    assert StatusOptions[1..] == ["pending", "in-progress", "completed"];
  }

  /** Each count is at most the total; the three together are at most the
      total, and equal to it exactly when every status is one of the three. */
  lemma StatisticsBounded(ts: seq<Task>)
    ensures PendingTasks(ts) <= TotalTasks(ts)
    ensures InProgressTasks(ts) <= TotalTasks(ts)
    ensures CompletedTasks(ts) <= TotalTasks(ts)
    ensures PendingTasks(ts) + InProgressTasks(ts) + CompletedTasks(ts) <= TotalTasks(ts)
    ensures PendingTasks(ts) + InProgressTasks(ts) + CompletedTasks(ts) == TotalTasks(ts) <==>
      forall t :: t in ts ==> IsKnownStatus(t.status)
  {
    var open := (t: Task) => t.status == "pending" || t.status == "in-progress";
    var known := (t: Task) => IsKnownStatus(t.status);
    FilterDisjoint(StatusFilter("pending"), StatusFilter("in-progress"), open, ts);
    FilterDisjoint(open, StatusFilter("completed"), known, ts);
    FilterKeepsAll(known, ts);
  }

  /** After `addTask` the total grows by one and so does the count of the new
      task's status; the other counts stay. */
  lemma CountsAfterAdd(ts: seq<Task>, d: Draft, now: Timestamp, status: string)
    ensures TotalTasks([NewTask(d, now)] + ts) == TotalTasks(ts) + 1
    ensures CountWithStatus([NewTask(d, now)] + ts, status) ==
      CountWithStatus(ts, status) + if d.status == status then 1 else 0
  {
    var s := [NewTask(d, now)] + ts;
    assert s[1..] == ts;
  }

  /** `deleteTask` never raises a count. */
  lemma CountsAfterRemove(ts: seq<Task>, id: int, status: string)
    ensures CountWithStatus(RemoveById(ts, id), status) <= CountWithStatus(ts, status)
  {
    FilterFilter(IdIsNot(id), StatusFilter(status), (t: Task) => t.id != id && t.status == status, ts);
    FilterFilter(StatusFilter(status), IdIsNot(id), (t: Task) => t.id != id && t.status == status, ts);
  }

  // ---------------------------------------------------------------------------
  // The priority choices against the stored priorities

  /** Every priority the dashboard offers besides "All Priorities" lists no
      task of the seed collection, whose priorities are labels such as
      "Low Priority". */
  lemma PriorityOptionsMatchNoSeedTask(k: nat)
    requires 1 <= k < |PriorityOptions|
    ensures FilteredTasks(SeedTasks(), Filters("", AllStatus, PriorityOptions[k])) == []
  {
    FilteredSound(SeedTasks(), Filters("", AllStatus, PriorityOptions[k]));
  }

  /** Every priority stored in the seed collection is one of the label-form
      choices. */
  lemma SeedPrioritiesAreLabels()
    ensures forall i :: 0 <= i < |SeedTasks()| ==> SeedTasks()[i].priority in LabelPriorityOptions[1..]
  {
    var s := SeedTasks();
    var labels := LabelPriorityOptions[1..];
    assert s[0].priority == labels[0] && s[3].priority == labels[0];
    assert s[2].priority == labels[1] && s[1].priority == labels[2];
  }

  /** With the choices in label form, each choice besides "All Priorities"
      lists at least one seed task. */
  lemma LabelPriorityOptionsMatchSeed(k: nat)
    requires 1 <= k < |LabelPriorityOptions|
    ensures FilteredTasks(SeedTasks(), Filters("", AllStatus, LabelPriorityOptions[k])) != []
  {
    var f := Filters("", AllStatus, LabelPriorityOptions[k]);
    var s := SeedTasks();
    var j := if k == 1 then 0 else if k == 2 then 2 else 1;
    assert s[j] in s && Accepts(f)(s[j]);
    FilteredIsOneFilter(s, f);
    assert multiset(Filter(Accepts(f), s))[s[j]] > 0;
  }
}
