// Application pages of storage/application_query.go: filter, count, sort, cut.
module ApplicationPages {
  import opened Ordering
  import opened Text

  datatype Disposition = Pending | Invited | Rejected | Hidden | Unknown

  // status is the stored text of the application status.
  datatype Entry = Entry(
    id: string, profileId: string, status: string, decisionCode: string, disposition: Disposition,
    externalId: string, title: string, employer: string, updatedAt: int)

  datatype Query = Query(
    profileId: string, status: string, decisionCode: string, vacancyExternalId: string,
    query: string, employer: string, group: string, sort: string, offset: nat, limit: nat)

  datatype Page = Page(ids: seq<string>, total: nat, groups: map<string, nat>)

  const IMPORTED := "imported_appltool"

  predicate SentOut(e: Entry) {
    e.status == "submitted" || e.decisionCode == "already_applied"
  }

  predicate NeedsInput(e: Entry) {
    e.status == "waiting_validation" &&
    e.decisionCode in {"questionnaire_required", "vacancy_test_required", "platform_validation_required",
                       "unsupported_response_flow", "captcha_required"}
  }

  // ApplicationListGroup
  function GroupOf(e: Entry): string {
    if e.decisionCode == IMPORTED then "imported"
    else if SentOut(e) then
      match e.disposition
      case Pending => "waiting_invitation"
      case Invited => "invited"
      case Rejected => "rejected"
      case Hidden => "hidden"
      case Unknown => "state_unknown"
    else if NeedsInput(e) then "needs_input"
    else if e.status in {"new", "preparing", "ready", "submitting", "pending_reconcile"} then "queued"
    else "not_sent"
  }

  predicate Sent(e: Entry) {
    SentOut(e) && e.decisionCode != IMPORTED
  }

  predicate Contains(s: string, part: string) {
    part <= s || (s != [] && Contains(s[1..], part))
  }

  // fold is the lower-casing of a whole text.
  predicate Selected(fold: string -> string, q: Query, e: Entry) {
    var needle, employer := fold(Trim(q.query)), fold(Trim(q.employer));
    (q.profileId == "" || e.profileId == q.profileId) && (q.status == "" || e.status == q.status) &&
    (q.decisionCode == "" || e.decisionCode == q.decisionCode) &&
    (q.vacancyExternalId == "" || e.externalId == q.vacancyExternalId) &&
    Contains(fold(e.employer), employer) &&
    (needle == "" || Contains(fold(e.title + "\n" + e.employer + "\n" + e.profileId + "\n" + e.decisionCode), needle))
  }

  // Which counters an entry belongs to; the empty group holds everything.
  predicate Belongs(e: Entry, group: string) {
    group == "" || GroupOf(e) == group || (group == "sent" && Sent(e))
  }

  function Filtered(fold: string -> string, q: Query, entries: seq<Entry>): seq<Entry> {
    if entries == [] then []
    else
      var last := entries[|entries| - 1];
      Filtered(fold, q, entries[..|entries| - 1]) + if Selected(fold, q, last) then [last] else []
  }

  function Those(entries: seq<Entry>, group: string): seq<Entry> {
    if entries == [] then []
    else
      var last := entries[|entries| - 1];
      Those(entries[..|entries| - 1], group) + if Belongs(last, group) then [last] else []
  }

  // ---- what the groups, the filter and the order say ----

  // Which group an entry is listed in: imported history apart, sent applications by the
  // platform's answer, and the others by what they wait for.
  lemma GroupsTold(e: Entry)
    ensures
      var imported := e.decisionCode == "imported_appltool";
      var sent := !imported && (e.status == "submitted" || e.decisionCode == "already_applied");
      var asks := !imported && !sent && e.status == "waiting_validation" &&
        (e.decisionCode == "questionnaire_required" || e.decisionCode == "vacancy_test_required" ||
         e.decisionCode == "platform_validation_required" || e.decisionCode == "unsupported_response_flow" ||
         e.decisionCode == "captcha_required");
      var queued := !imported && !sent &&
        (e.status == "new" || e.status == "preparing" || e.status == "ready" || e.status == "submitting" ||
         e.status == "pending_reconcile");
      (GroupOf(e) == "imported" <==> imported) &&
      (GroupOf(e) == "waiting_invitation" <==> sent && e.disposition == Pending) &&
      (GroupOf(e) == "invited" <==> sent && e.disposition == Invited) &&
      (GroupOf(e) == "rejected" <==> sent && e.disposition == Rejected) &&
      (GroupOf(e) == "hidden" <==> sent && e.disposition == Hidden) &&
      (GroupOf(e) == "state_unknown" <==> sent && e.disposition == Unknown) &&
      (GroupOf(e) == "needs_input" <==> asks) &&
      (GroupOf(e) == "queued" <==> queued) &&
      (GroupOf(e) == "not_sent" <==> !imported && !sent && !asks && !queued) &&
      (Sent(e) <==> sent)
  {
  }

  ghost predicate OccursAt(s: string, part: string, i: int) {
    0 <= i <= |s| - |part| && s[i..i + |part|] == part
  }

  // The part occurs somewhere.
  ghost predicate Occurs(s: string, part: string) {
    exists i :: OccursAt(s, part, i)
  }

  lemma {:induction false} ContainsExactly(s: string, part: string)
    ensures Contains(s, part) <==> Occurs(s, part)
  {
    if part <= s {
      assert OccursAt(s, part, 0);
    } else if s != [] {
      ContainsExactly(s[1..], part);
      if i :| OccursAt(s, part, i) {
        assert i > 0;
        assert OccursAt(s[1..], part, i - 1);
      }
      if j :| OccursAt(s[1..], part, j) {
        assert OccursAt(s, part, j + 1);
      }
    }
  }

  // Which entries a query selects: each criterion given holds, employer and text occurring in
  // the entry whatever their case.
  lemma SelectedExactly(fold: string -> string, q: Query, e: Entry)
    ensures Selected(fold, q, e) <==>
      (q.profileId != "" ==> e.profileId == q.profileId) && (q.status != "" ==> e.status == q.status) &&
      (q.decisionCode != "" ==> e.decisionCode == q.decisionCode) &&
      (q.vacancyExternalId != "" ==> e.externalId == q.vacancyExternalId) &&
      Occurs(fold(e.employer), fold(Trim(q.employer))) &&
      (fold(Trim(q.query)) != "" ==>
        Occurs(fold(e.title + "\n" + e.employer + "\n" + e.profileId + "\n" + e.decisionCode), fold(Trim(q.query))))
  {
    hide Trim;
    ContainsExactly(fold(e.employer), fold(Trim(q.employer)));
    ContainsExactly(fold(e.title + "\n" + e.employer + "\n" + e.profileId + "\n" + e.decisionCode),
      fold(Trim(q.query)));
    hide Contains, Occurs;
  }

  // The order: by employer or title if asked for, then the latest first, unless the earliest
  // is asked for, then by id.
  lemma OrderTold(fold: string -> string, sort: string, a: Entry, b: Entry)
    ensures sort == "employer_asc" && fold(a.employer) != fold(b.employer) ==>
      (Before(fold, sort, a, b) <==> Less(fold(a.employer), fold(b.employer)))
    ensures sort == "title_asc" && fold(a.title) != fold(b.title) ==>
      (Before(fold, sort, a, b) <==> Less(fold(a.title), fold(b.title)))
    ensures
      (sort == "employer_asc" ==> fold(a.employer) == fold(b.employer)) &&
      (sort == "title_asc" ==> fold(a.title) == fold(b.title)) && a.updatedAt != b.updatedAt ==>
        (Before(fold, sort, a, b) <==> (a.updatedAt > b.updatedAt) == (sort != "updated_asc"))
    ensures
      (sort == "employer_asc" ==> fold(a.employer) == fold(b.employer)) &&
      (sort == "title_asc" ==> fold(a.title) == fold(b.title)) && a.updatedAt == b.updatedAt ==>
        (Before(fold, sort, a, b) <==> Less(a.id, b.id))
  {
  }

  // ---- the order ----

  // The comparator handed to the sort.
  predicate Before(fold: string -> string, sort: string, a: Entry, b: Entry) {
    if sort == "employer_asc" && fold(a.employer) != fold(b.employer) then Less(fold(a.employer), fold(b.employer))
    else if sort == "title_asc" && fold(a.title) != fold(b.title) then Less(fold(a.title), fold(b.title))
    else if a.updatedAt != b.updatedAt then
      if sort == "updated_asc" then a.updatedAt < b.updatedAt else a.updatedAt > b.updatedAt
    else Less(a.id, b.id)
  }

  function KeyOf(fold: string -> string, sort: string, e: Entry): string {
    if sort == "employer_asc" then fold(e.employer) else if sort == "title_asc" then fold(e.title) else ""
  }

  function AgeOf(sort: string, e: Entry): int {
    if sort == "updated_asc" then e.updatedAt else -e.updatedAt
  }

  // It compares text, then age, then id.
  lemma BeforeIsLexicographic(fold: string -> string, sort: string, a: Entry, b: Entry)
    ensures Before(fold, sort, a, b) <==>
      (Less(KeyOf(fold, sort, a), KeyOf(fold, sort, b)) ||
       (KeyOf(fold, sort, a) == KeyOf(fold, sort, b) &&
        (AgeOf(sort, a) < AgeOf(sort, b) || (AgeOf(sort, a) == AgeOf(sort, b) && Less(a.id, b.id)))))
  {
    LessIrreflexive(KeyOf(fold, sort, a));
  }

  // Main result on the order: a strict total order of entries with distinct ids.
  lemma BeforeIsStrictTotal(fold: string -> string, sort: string, a: Entry, b: Entry, c: Entry)
    ensures !Before(fold, sort, a, a)
    ensures Before(fold, sort, a, b) && Before(fold, sort, b, c) ==> Before(fold, sort, a, c)
    ensures a.id != b.id ==> Before(fold, sort, a, b) || Before(fold, sort, b, a)
  {
    BeforeIsLexicographic(fold, sort, a, b);
    BeforeIsLexicographic(fold, sort, b, a);
    BeforeIsLexicographic(fold, sort, b, c);
    BeforeIsLexicographic(fold, sort, a, c);
    var ka, kb, kc := KeyOf(fold, sort, a), KeyOf(fold, sort, b), KeyOf(fold, sort, c);
    LessIrreflexive(a.id);
    LessTotal(ka, kb);
    LessTotal(a.id, b.id);
    if Less(ka, kb) && Less(kb, kc) {
      LessTransitive(ka, kb, kc);
    }
    if Less(a.id, b.id) && Less(b.id, c.id) {
      LessTransitive(a.id, b.id, c.id);
    }
  }

  ghost predicate InOrder(fold: string -> string, sort: string, s: seq<Entry>) {
    forall i, j :: 0 <= i < j < |s| ==> Before(fold, sort, s[i], s[j])
  }

  ghost predicate DistinctIds(s: seq<Entry>) {
    forall i, j :: 0 <= i < j < |s| ==> s[i].id != s[j].id
  }

  function Insert(fold: string -> string, sort: string, x: Entry, s: seq<Entry>): (r: seq<Entry>)
    ensures multiset(r) == multiset(s) + multiset{x}
  {
    if s == [] then [x]
    else if Before(fold, sort, s[0], x) then
      assert s == [s[0]] + s[1..];
      [s[0]] + Insert(fold, sort, x, s[1..])
    else [x] + s
  }

  // sort.Slice
  function Sorted(fold: string -> string, sort: string, s: seq<Entry>): (r: seq<Entry>)
    ensures multiset(r) == multiset(s) && |r| == |s|
  {
    if s == [] then []
    else
      assert s == [s[0]] + s[1..];
      Insert(fold, sort, s[0], Sorted(fold, sort, s[1..]))
  }

  lemma {:induction false} InsertInOrder(fold: string -> string, sort: string, x: Entry, s: seq<Entry>)
    requires InOrder(fold, sort, s) && forall e :: e in s ==> e.id != x.id
    ensures InOrder(fold, sort, Insert(fold, sort, x, s))
  {
    var r := Insert(fold, sort, x, s);
    if s == [] {
    } else if Before(fold, sort, s[0], x) {
      var rest := s[1..];
      forall e | e in rest ensures e.id != x.id {
        assert e in s;
      }
      InsertInOrder(fold, sort, x, rest);
      forall e | e in r[1..] ensures Before(fold, sort, s[0], e) {
        assert e in multiset(r[1..]);
        assert e == x || e in rest;
        if e in rest {
          var i :| 0 <= i < |rest| && rest[i] == e;
          assert s[i + 1] == e;
        }
      }
    } else {
      assert s[0] in s;
      BeforeIsStrictTotal(fold, sort, x, s[0], x);
      forall j | 0 <= j < |s| ensures Before(fold, sort, x, s[j]) {
        if j > 0 {
          BeforeIsStrictTotal(fold, sort, x, s[0], s[j]);
        }
      }
    }
  }

  lemma {:induction false} SortedInOrder(fold: string -> string, sort: string, s: seq<Entry>)
    requires DistinctIds(s)
    ensures InOrder(fold, sort, Sorted(fold, sort, s))
  {
    if s != [] {
      var rest := Sorted(fold, sort, s[1..]);
      SortedInOrder(fold, sort, s[1..]);
      forall e | e in rest ensures e.id != s[0].id {
        assert e in multiset(rest);
        assert e in multiset(s[1..]);
        var i :| 0 <= i < |s[1..]| && s[1..][i] == e;
        assert s[i + 1] == e;
      }
      InsertInOrder(fold, sort, s[0], rest);
    }
  }

  // Any sort by the comparator gives the same list.
  lemma {:induction false} OrderIsUnique(fold: string -> string, sort: string, a: seq<Entry>, b: seq<Entry>)
    requires multiset(a) == multiset(b) && InOrder(fold, sort, a) && InOrder(fold, sort, b)
    ensures a == b
  {
    assert |multiset(a)| == |a| && |multiset(b)| == |b|;
    if a != [] {
      FirstAgrees(fold, sort, a, b);
      assert a == [a[0]] + a[1..] && b == [b[0]] + b[1..];
      assert multiset(a[1..]) == multiset(a) - multiset{a[0]};
      assert multiset(b[1..]) == multiset(b) - multiset{b[0]};
      OrderIsUnique(fold, sort, a[1..], b[1..]);
    }
  }

  lemma FirstAgrees(fold: string -> string, sort: string, a: seq<Entry>, b: seq<Entry>)
    requires multiset(a) == multiset(b) && InOrder(fold, sort, a) && InOrder(fold, sort, b) && a != [] && b != []
    ensures a[0] == b[0]
  {
    assert a[0] in multiset(b) && b[0] in multiset(a);
    var i :| 0 <= i < |a| && a[i] == b[0];
    var j :| 0 <= j < |b| && b[j] == a[0];
    if a[0] != b[0] {
      BeforeIsStrictTotal(fold, sort, a[0], b[0], a[0]);
      assert false;
    }
  }

  // ---- the page ----

  function Cut(entries: seq<Entry>, offset: nat, limit: nat): seq<Entry> {
    var start := if offset < |entries| then offset else |entries|;
    var length := if limit < |entries| - start then limit else |entries| - start;
    entries[start..start + length]
  }

  function IdsOf(entries: seq<Entry>): (ids: seq<string>)
    ensures |ids| == |entries| && forall i :: 0 <= i < |ids| ==> ids[i] == entries[i].id
  {
    if entries == [] then [] else IdsOf(entries[..|entries| - 1]) + [entries[|entries| - 1].id]
  }

  function Counter(groups: map<string, nat>, group: string): nat {
    if group in groups then groups[group] else 0
  }

  method Count(groups: map<string, nat>, group: string) returns (r: map<string, nat>)
    ensures forall g :: Counter(r, g) == Counter(groups, g) + if g == group then 1 else 0
  {
    r := groups[group := Counter(groups, group) + 1];
  }

  // One entry goes to exactly its counters.
  method CountEntry(groups: map<string, nat>, e: Entry) returns (r: map<string, nat>)
    ensures forall g :: Counter(r, g) == Counter(groups, g) + if Belongs(e, g) then 1 else 0
  {
    r := Count(groups, GroupOf(e));
    r := Count(r, "");
    if Sent(e) {
      r := Count(r, "sent");
    }
  }

  // Every counter holds the size of its group.
  ghost predicate Counts(groups: map<string, nat>, entries: seq<Entry>) {
    forall g :: Counter(groups, g) == |Those(entries, g)|
  }

  lemma ThoseNext(entries: seq<Entry>, e: Entry, group: string)
    ensures Those(entries + [e], group) == Those(entries, group) + if Belongs(e, group) then [e] else []
  {
    assert (entries + [e])[..|entries|] == entries;
  }

  lemma CountsNext(groups: map<string, nat>, groups': map<string, nat>, entries: seq<Entry>, e: Entry)
    requires Counts(groups, entries)
    requires forall g :: Counter(groups', g) == Counter(groups, g) + if Belongs(e, g) then 1 else 0
    ensures Counts(groups', entries + [e])
  {
    forall g ensures Counter(groups', g) == |Those(entries + [e], g)| {
      ThoseNext(entries, e, g);
      assert Counter(groups, g) == |Those(entries, g)|;
    }
  }

  lemma FilteredNext(fold: string -> string, q: Query, entries: seq<Entry>, i: nat)
    requires i < |entries|
    ensures Filtered(fold, q, entries[..i + 1]) ==
      if Selected(fold, q, entries[i]) then Filtered(fold, q, entries[..i]) + [entries[i]]
        else Filtered(fold, q, entries[..i])
  {
    assert entries[..i + 1][..i] == entries[..i];
  }

  // The scan: filter, count, keep the queried group.
  method Scan(fold: string -> string, entries: seq<Entry>, q: Query)
      returns (matched: seq<Entry>, groups: map<string, nat>)
    ensures matched == Those(Filtered(fold, q, entries), q.group)
    ensures Counts(groups, Filtered(fold, q, entries))
  {
    groups := map[];
    matched := [];
    ghost var filtered: seq<Entry> := [];
    for i := 0 to |entries|
      invariant filtered == Filtered(fold, q, entries[..i]) && matched == Those(filtered, q.group)
      invariant Counts(groups, filtered)
    {
      var e := entries[i];
      FilteredNext(fold, q, entries, i);
      if Selected(fold, q, e) {
        var counted := CountEntry(groups, e);
        CountsNext(groups, counted, filtered, e);
        ThoseNext(filtered, e, q.group);
        groups := counted;
        filtered := filtered + [e];
        if q.group == "" || GroupOf(e) == q.group || (q.group == "sent" && Sent(e)) {
          matched := matched + [e];
        }
      }
    }
    assert entries[..|entries|] == entries;
  }

  // The entries a query lists, page by page.
  ghost function Listed(fold: string -> string, entries: seq<Entry>, q: Query): seq<Entry> {
    Sorted(fold, q.sort, Those(Filtered(fold, q, entries), q.group))
  }

  ghost predicate IsPage(fold: string -> string, entries: seq<Entry>, q: Query, page: Page) {
    page.ids == IdsOf(Cut(Listed(fold, entries, q), q.offset, q.limit)) &&
    Counts(page.groups, Filtered(fold, q, entries)) && page.total == Counter(page.groups, q.group)
  }

  method CollectIds(cut: seq<Entry>) returns (ids: seq<string>)
    ensures ids == IdsOf(cut)
  {
    ids := [];
    for i := 0 to |cut|
      invariant ids == IdsOf(cut[..i])
    {
      assert cut[..i + 1][..i] == cut[..i];
      ids := ids + [cut[i].id];
    }
    assert cut[..|cut|] == cut;
  }

  // Main result: the page is cut from the sorted entries of the queried group, every
  // counter holds the size of its group, and so the total is that group's counter.
  method SelectApplicationPage(fold: string -> string, entries: seq<Entry>, q: Query) returns (page: Page)
    ensures IsPage(fold, entries, q, page)
  {
    hide Those, Filtered, Cut;
    var matched, groups := Scan(fold, entries, q);
    assert Counter(groups, q.group) == |matched|;
    matched := Sorted(fold, q.sort, matched);
    var ids := CollectIds(Cut(matched, q.offset, q.limit));
    page := Page(ids, |matched|, groups);
  }

  lemma {:induction false} FilteredExactly(fold: string -> string, q: Query, entries: seq<Entry>, e: Entry)
    ensures multiset(Filtered(fold, q, entries))[e] == if Selected(fold, q, e) then multiset(entries)[e] else 0
  {
    hide Selected;
    if entries != [] {
      var init, last := entries[..|entries| - 1], entries[|entries| - 1];
      FilteredExactly(fold, q, init, e);
      assert entries == init + [last];
    }
  }

  lemma {:induction false} ThoseExactly(entries: seq<Entry>, group: string, e: Entry)
    ensures multiset(Those(entries, group))[e] == if Belongs(e, group) then multiset(entries)[e] else 0
  {
    hide Belongs;
    if entries != [] {
      var init, last := entries[..|entries| - 1], entries[|entries| - 1];
      ThoseExactly(init, group, e);
      assert entries == init + [last];
    }
  }

  // What a query lists: the selected entries of its group, each as often as it occurs, in
  // order.
  lemma ListedExactly(fold: string -> string, entries: seq<Entry>, q: Query, e: Entry)
    requires DistinctIds(entries)
    ensures multiset(Listed(fold, entries, q))[e] ==
      if Selected(fold, q, e) && (q.group == "" || GroupOf(e) == q.group || (q.group == "sent" && Sent(e)))
      then multiset(entries)[e] else 0
    ensures InOrder(fold, q.sort, Listed(fold, entries, q))
  {
    hide Selected, GroupOf, Sent, Before;
    var filtered := Filtered(fold, q, entries);
    FilteredExactly(fold, q, entries, e);
    ThoseExactly(filtered, q.group, e);
    PartsKeepIds(fold, entries, q);
    SortedInOrder(fold, q.sort, Those(filtered, q.group));
  }

  lemma PartsKeepIds(fold: string -> string, entries: seq<Entry>, q: Query)
    requires DistinctIds(entries)
    ensures DistinctIds(Those(Filtered(fold, q, entries), q.group))
  {
    FilteredKeepsIds(fold, entries, q);
    ThoseKeepIds(Filtered(fold, q, entries), q.group);
  }

  lemma OtherIds(init: seq<Entry>, last: Entry)
    requires DistinctIds(init + [last])
    ensures DistinctIds(init) && forall e :: e in init ==> e.id != last.id
  {
    var all := init + [last];
    forall i, j | 0 <= i < j < |init| ensures init[i].id != init[j].id {
      assert all[i].id != all[j].id;
    }
    forall i | 0 <= i < |init| ensures init[i].id != last.id {
      assert all[i].id != all[|init|].id;
    }
  }

  lemma {:induction false} FilteredKeepsIds(fold: string -> string, entries: seq<Entry>, q: Query)
    requires DistinctIds(entries)
    ensures DistinctIds(Filtered(fold, q, entries))
    ensures forall e :: e in Filtered(fold, q, entries) ==> e in entries
  {
    hide Selected;
    if entries != [] {
      var init, last := entries[..|entries| - 1], entries[|entries| - 1];
      FilteredKeepsIds(fold, init, q);
      OtherIds(init, last);
      assert entries == init + [last];
    }
  }

  lemma {:induction false} ThoseKeepIds(entries: seq<Entry>, group: string)
    requires DistinctIds(entries)
    ensures DistinctIds(Those(entries, group))
    ensures forall e :: e in Those(entries, group) ==> e in entries
  {
    hide Belongs;
    if entries != [] {
      var init, last := entries[..|entries| - 1], entries[|entries| - 1];
      ThoseKeepIds(init, group);
      OtherIds(init, last);
      assert entries == init + [last];
    }
  }

  // What a page holds: the ids at its places of the listing, as many as there are up to the
  // limit, and the size of the whole listing.
  lemma PageTold(fold: string -> string, entries: seq<Entry>, q: Query, page: Page)
    requires IsPage(fold, entries, q, page)
    ensures page.total == |Listed(fold, entries, q)|
    ensures |page.ids| <= q.limit && (q.offset >= page.total ==> page.ids == [])
    ensures q.offset < page.total ==>
      |page.ids| == if page.total - q.offset < q.limit then page.total - q.offset else q.limit
    ensures forall i :: 0 <= i < |page.ids| ==>
      q.offset + i < page.total && page.ids[i] == Listed(fold, entries, q)[q.offset + i].id
  {
    hide Listed, Filtered, Those, Counts;
    TotalIsListed(fold, entries, q, page);
  }

  lemma TotalIsListed(fold: string -> string, entries: seq<Entry>, q: Query, page: Page)
    requires IsPage(fold, entries, q, page)
    ensures page.total == |Listed(fold, entries, q)|
  {
    hide Filtered, Those;
    assert Counter(page.groups, q.group) == |Those(Filtered(fold, q, entries), q.group)|;
  }

  // The counters add up: the sent ones to "sent", the base groups to everything.
  lemma {:induction false} CountersAddUp(entries: seq<Entry>)
    ensures Size(entries, "sent") ==
      Size(entries, "waiting_invitation") + Size(entries, "invited") + Size(entries, "rejected") +
      Size(entries, "hidden") + Size(entries, "state_unknown")
    ensures |entries| == Size(entries, "") ==
      Size(entries, "sent") + Size(entries, "queued") + Size(entries, "needs_input") +
      Size(entries, "not_sent") + Size(entries, "imported")
  {
    if entries != [] {
      var init, e := entries[..|entries| - 1], entries[|entries| - 1];
      CountersAddUp(init);
      OneGroupEach(e);
      forall g ensures Size(entries, g) == Size(init, g) + One(e, g) {
      }
    }
  }

  ghost function Size(entries: seq<Entry>, group: string): nat {
    |Those(entries, group)|
  }

  ghost function One(e: Entry, group: string): nat {
    if Belongs(e, group) then 1 else 0
  }

  lemma OneGroupEach(e: Entry)
    ensures One(e, "sent") ==
      One(e, "waiting_invitation") + One(e, "invited") + One(e, "rejected") + One(e, "hidden") + One(e, "state_unknown")
    ensures 1 == One(e, "") ==
      One(e, "sent") + One(e, "queued") + One(e, "needs_input") + One(e, "not_sent") + One(e, "imported")
  {
  }

  // ---- all pages ----

  // The k-th page of a query is asked for with the same limit, k pages further on.
  function Start(q: Query, k: nat): nat {
    k * q.limit
  }

  function PageQuery(q: Query, k: nat): Query {
    q.(offset := Start(q, k))
  }

  ghost function AllIds(pages: seq<Page>): seq<string> {
    if pages == [] then [] else AllIds(pages[..|pages| - 1]) + pages[|pages| - 1].ids
  }

  lemma {:induction false} IdsConcat(a: seq<Entry>, b: seq<Entry>)
    ensures IdsOf(a + b) == IdsOf(a) + IdsOf(b)
  {
    if b == [] {
      assert a + b == a;
    } else {
      IdsConcat(a, b[..|b| - 1]);
      assert (a + b)[..|a + b| - 1] == a + b[..|b| - 1];
    }
  }

  lemma SameListing(fold: string -> string, entries: seq<Entry>, q: Query, k: nat)
    ensures Filtered(fold, PageQuery(q, k), entries) == Filtered(fold, q, entries)
    ensures Listed(fold, entries, PageQuery(q, k)) == Listed(fold, entries, q)
  {
    SameFilter(fold, entries, q, k);
  }

  lemma {:induction false} SameFilter(fold: string -> string, entries: seq<Entry>, q: Query, k: nat)
    ensures Filtered(fold, PageQuery(q, k), entries) == Filtered(fold, q, entries)
  {
    if entries != [] {
      SameFilter(fold, entries[..|entries| - 1], q, k);
    }
  }

  lemma StartNext(q: Query, n: nat)
    ensures Start(q, n + 1) == Start(q, n) + q.limit && Start(q, 0) == 0
  {
  }

  lemma PageIsCut(fold: string -> string, entries: seq<Entry>, q: Query, page: Page, n: nat)
    requires IsPage(fold, entries, PageQuery(q, n), page)
    ensures page.ids == IdsOf(Cut(Listed(fold, entries, q), Start(q, n), q.limit))
    ensures page.total == |Listed(fold, entries, q)|
  {
    SameListing(fold, entries, q, n);
    assert Counter(page.groups, q.group) == |Those(Filtered(fold, q, entries), q.group)|;
  }

  lemma OnePageMore(fold: string -> string, entries: seq<Entry>, q: Query, page: Page, n: nat)
    requires IsPage(fold, entries, PageQuery(q, n), page)
    ensures IdsOf(UpTo(Listed(fold, entries, q), Start(q, n))) + page.ids ==
      IdsOf(UpTo(Listed(fold, entries, q), Start(q, n + 1)))
  {
    hide IsPage, Listed, Start, PageQuery;
    PageIsCut(fold, entries, q, page, n);
    StartNext(q, n);
    var listed := Listed(fold, entries, q);
    CutNext(listed, Start(q, n), q.limit);
    hide UpTo, Cut;
    IdsConcat(UpTo(listed, Start(q, n)), Cut(listed, Start(q, n), q.limit));
  }

  ghost predicate ArePages(fold: string -> string, entries: seq<Entry>, q: Query, pages: seq<Page>) {
    forall k :: 0 <= k < |pages| ==> IsPage(fold, entries, PageQuery(q, k), pages[k])
  }

  lemma {:induction false} PagesUpTo(fold: string -> string, entries: seq<Entry>, q: Query, pages: seq<Page>)
    requires ArePages(fold, entries, q, pages)
    ensures AllIds(pages) == IdsOf(UpTo(Listed(fold, entries, q), Start(q, |pages|)))
  {
    hide IsPage, Listed, PageQuery;
    if pages == [] {
      assert UpTo(Listed(fold, entries, q), Start(q, 0)) == [];
    } else {
      hide Start;
      var n := |pages| - 1;
      PagesUpTo(fold, entries, q, pages[..n]);
      OnePageMore(fold, entries, q, pages[n], n);
    }
  }

  // Main result on pages: whoever reads on page after page gets the id of every listed
  // entry once, in order, and every page names the same total.
  lemma PagesCoverAll(fold: string -> string, entries: seq<Entry>, q: Query, pages: seq<Page>)
    requires ArePages(fold, entries, q, pages)
    ensures forall k :: 0 <= k < |pages| ==> pages[k].total == |Listed(fold, entries, q)|
    ensures AllIds(pages) == IdsOf(UpTo(Listed(fold, entries, q), Start(q, |pages|)))
    ensures Start(q, |pages|) >= |Listed(fold, entries, q)| ==> AllIds(pages) == IdsOf(Listed(fold, entries, q))
  {
    hide IsPage, Listed, PageQuery;
    PagesUpTo(fold, entries, q, pages);
    forall k | 0 <= k < |pages| ensures pages[k].total == |Listed(fold, entries, q)| {
      PageIsCut(fold, entries, q, pages[k], k);
    }
  }

  ghost function UpTo(entries: seq<Entry>, n: nat): seq<Entry> {
    if n < |entries| then entries[..n] else entries
  }

  lemma CutNext(entries: seq<Entry>, from: nat, limit: nat)
    ensures UpTo(entries, from) + Cut(entries, from, limit) == UpTo(entries, from + limit)
  {
  }
}
