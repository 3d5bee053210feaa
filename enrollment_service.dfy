/** The enrollment service of the skill: the enrollment set built from the LMS
    listing, its join with catalog titles, and the request payloads sent to the
    two upstream APIs. The HTTP calls themselves are inputs (`Upstream`). */
module EnrollmentService {
  import opened Wrappers
  import Text

  /** A course-run key such as "course-v1:DavidsonX+DavNowX_Voting+3T2016". */
  type CourseKey = string

  /** One enrollment record: empty before the catalog join, titled after it. */
  datatype Record = Record(title: Option<string>)

  /** A dict from course-run key to record, with its iteration order (the order
      in which keys were first inserted). */
  datatype EnrollmentMap = EnrollmentMap(order: seq<CourseKey>, records: map<CourseKey, Record>)
  {
    predicate Valid() {
      && (forall i, j | 0 <= i < j < |order| :: order[i] != order[j])
      && (forall k | k in order :: k in records)
      && (forall k | k in records :: k in order)
    }
  }

  type EnrollmentSet = m: EnrollmentMap | m.Valid() witness EnrollmentMap([], map[])

  /** The number of enrollments, one per key. */
  function Count(m: EnrollmentSet): nat {
    |m.order|
  }

  /** One item of the LMS enrollment listing: the course id of its course details. */
  datatype LmsEnrollment = LmsEnrollment(courseId: CourseKey)

  /** One item of the catalog's course-run lookup: a key and a title. */
  datatype CourseRun = CourseRun(key: CourseKey, title: string)

  /** One item of the catalog search: its title. */
  datatype SearchResult = SearchResult(title: string)

  /** The `APIError` raised by `get_enrollments` and `_change_enrollment`. */
  datatype ApiError = ApiError

  /** What `get_course_names` lets escape: the catalog call failing, or a
      catalog result whose key is not in the set (a `KeyError`). */
  datatype JoinFailure = CatalogUnavailable | UnknownCourseRun(key: CourseKey)

  /** Storing a record under a key: an existing key keeps its place, a new one
      goes last. */
  function Assign(m: EnrollmentSet, k: CourseKey, r: Record): (m': EnrollmentSet)
    ensures m'.records == m.records[k := r]
    ensures m'.order == if k in m.records then m.order else m.order + [k]
  {
    if k in m.records then EnrollmentMap(m.order, m.records[k := r])
    else EnrollmentMap(m.order + [k], m.records[k := r])
  }

  function CourseIds(listing: seq<LmsEnrollment>): (ids: seq<CourseKey>)
    ensures |ids| == |listing|
    ensures forall i :: 0 <= i < |ids| ==> ids[i] == listing[i].courseId
  {
    seq(|listing|, i requires 0 <= i < |listing| => listing[i].courseId)
  }

  /** The set built from the listed ids: the key set is exactly the set of
      ids, repeated ids collapse, and no record has a title yet. */
  function FromCourseIds(ids: seq<CourseKey>): (m: EnrollmentSet)
    ensures forall k :: k in m.records <==> k in ids
    ensures forall k | k in m.records :: m.records[k] == Record(None)
  {
    if ids == [] then EnrollmentMap([], map[])
    else Assign(FromCourseIds(ids[..|ids| - 1]), ids[|ids| - 1], Record(None))
  }

  /** Position of the first occurrence of `x` in `s`. */
  function FirstIndex(s: seq<CourseKey>, x: CourseKey): (i: nat)
    requires x in s
    ensures i < |s| && s[i] == x
    ensures forall j :: 0 <= j < i ==> s[j] != x
  {
    if s[0] == x then 0 else 1 + FirstIndex(s[1..], x)
  }

  lemma FirstIndexSnoc(s: seq<CourseKey>, y: CourseKey, x: CourseKey)
    requires x in s + [y]
    ensures FirstIndex(s + [y], x) == if x in s then FirstIndex(s, x) else |s|
  {
    var t := s + [y];
    var i := FirstIndex(t, x);
    if x in s {
      var j := FirstIndex(s, x);
      assert t[j] == x;
    }
  }

  /** Every key of `order` occurs in `ids`, and the keys of `order` come in
      the order of their first occurrence in `ids`. */
  predicate FirstSeenOrder(order: seq<CourseKey>, ids: seq<CourseKey>) {
    forall i, j | 0 <= i < j < |order| ::
      order[i] in ids && order[j] in ids && FirstIndex(ids, order[i]) < FirstIndex(ids, order[j])
  }

  /** Appending an id keeps the first-seen order, whether the id is new and
      goes last or is a repeat and leaves the order alone. */
  lemma FirstSeenOrderSnoc(order: seq<CourseKey>, init: seq<CourseKey>, y: CourseKey, order': seq<CourseKey>)
    requires FirstSeenOrder(order, init)
    requires forall k :: k in order <==> k in init
    requires order' == if y in init then order else order + [y]
    ensures FirstSeenOrder(order', init + [y])
  {
    var ids := init + [y];
    forall i, j | 0 <= i < j < |order'|
      ensures order'[i] in ids && order'[j] in ids
      ensures FirstIndex(ids, order'[i]) < FirstIndex(ids, order'[j])
    {
      assert order'[i] == order[i];
      FirstIndexSnoc(init, y, order'[i]);
      FirstIndexSnoc(init, y, order'[j]);
      if j >= |order| {
        assert order'[j] == y && y !in init;
      }
    }
  }

  /** The set is iterated in the order in which the ids first appear in the
      LMS listing. */
  lemma {:induction false} FromCourseIdsOrder(ids: seq<CourseKey>)
    ensures FirstSeenOrder(FromCourseIds(ids).order, ids)
  {
    if ids != [] {
      var init := ids[..|ids| - 1];
      var y := ids[|ids| - 1];
      assert ids == init + [y];
      FromCourseIdsOrder(init);
      var prev := FromCourseIds(init);
      FirstSeenOrderSnoc(prev.order, init, y, FromCourseIds(ids).order);
    }
  }

  /** A key sequence without repetition is as long as its set of keys. */
  lemma {:induction false} DistinctCardinality(order: seq<CourseKey>, keys: set<CourseKey>)
    requires forall i, j | 0 <= i < j < |order| :: order[i] != order[j]
    requires forall k :: k in keys <==> k in order
    ensures |order| == |keys|
  {
    if order != [] {
      var last := order[|order| - 1];
      var init := order[..|order| - 1];
      assert last !in init;
      forall k ensures k in keys - {last} <==> k in init {
        if k in order && k != last {
          var i :| 0 <= i < |order| && order[i] == k;
          assert i < |order| - 1;
          assert init[i] == k;
        }
      }
      DistinctCardinality(init, keys - {last});
    }
  }

  /** The spoken count is the number of distinct course ids
      in the listing. */
  lemma CountIsDistinctIds(ids: seq<CourseKey>)
    ensures Count(FromCourseIds(ids)) == |set k | k in ids|
  {
    var m := FromCourseIds(ids);
    DistinctCardinality(m.order, set k | k in ids);
  }

  /** `get_enrollments`: any failure of the listing call becomes `APIError`;
      otherwise the set holds one untitled record per distinct course id. */
  function GetEnrollments(listing: Upstream<seq<LmsEnrollment>>): (r: Result<EnrollmentSet, ApiError>)
    ensures r.Err? <==> listing.Failed?
    ensures r.Ok? ==> forall k :: k in r.value.records <==> exists e :: e in listing.body && e.courseId == k
    ensures r.Ok? ==> forall k | k in r.value.records :: r.value.records[k].title == None
  {
    match listing
    case Failed => Err(ApiError)
    case Answered(items) =>
      var ids := CourseIds(items);
      var m := FromCourseIds(ids);
      assert forall k :: k in ids <==> exists e :: e in items && e.courseId == k by {
        forall k ensures k in ids ==> exists e :: e in items && e.courseId == k {
          if k in ids {
            var i :| 0 <= i < |ids| && ids[i] == k;
            assert items[i] in items;
          }
        }
      }
      Ok(m)
  }

  /** The set with a title given to the record under `key`; the source makes
      this change to the dict in place. */
  function SetTitle(m: EnrollmentSet, key: CourseKey, title: string): (m': EnrollmentSet)
    requires key in m.records
    ensures m'.order == m.order && m'.records == m.records[key := Record(Some(title))]
  {
    EnrollmentMap(m.order, m.records[key := Record(Some(title))])
  }

  /** The catalog join of `get_course_names`: the course runs are applied in
      order, and a run whose key is not in the set is a `KeyError`. */
  function Enrich(m: EnrollmentSet, runs: seq<CourseRun>): Result<EnrollmentSet, JoinFailure>
    decreases |runs|
  {
    if runs == [] then Ok(m)
    else if runs[0].key !in m.records then Err(UnknownCourseRun(runs[0].key))
    else Enrich(SetTitle(m, runs[0].key, runs[0].title), runs[1..])
  }

  /** The title the join leaves on `key`: that of the LAST run with that key. */
  function LastTitle(runs: seq<CourseRun>, key: CourseKey): Option<string>
  {
    if runs == [] then None
    else if LastTitle(runs[1..], key).Some? then LastTitle(runs[1..], key)
    else if runs[0].key == key then Some(runs[0].title)
    else None
  }

  /** The join fails exactly when some run names a key outside the set, and it
      then reports the first such key. */
  lemma {:induction false} EnrichFailsIff(m: EnrollmentSet, runs: seq<CourseRun>)
    ensures Enrich(m, runs).Err? <==> exists i :: 0 <= i < |runs| && runs[i].key !in m.records
    ensures Enrich(m, runs).Err? ==>
      exists i :: 0 <= i < |runs| && Enrich(m, runs).error == UnknownCourseRun(runs[i].key)
        && runs[i].key !in m.records && (forall j :: 0 <= j < i ==> runs[j].key in m.records)
    decreases |runs|
  {
    if runs != [] && runs[0].key in m.records {
      var m' := SetTitle(m, runs[0].key, runs[0].title);
      EnrichFailsIff(m', runs[1..]);
      assert m'.records.Keys == m.records.Keys;
      if Enrich(m, runs).Err? {
        var i :| 0 <= i < |runs[1..]| &&
          Enrich(m', runs[1..]).error == UnknownCourseRun(runs[1..][i].key) && runs[1..][i].key !in m'.records &&
          forall j :: 0 <= j < i ==> runs[1..][j].key in m'.records;
        assert runs[i + 1] == runs[1..][i];
        forall j | 0 <= j < i + 1 ensures runs[j].key in m.records {
          if j > 0 { assert runs[j] == runs[1..][j - 1]; }
        }
      }
      forall i | 0 <= i < |runs| && runs[i].key !in m.records
        ensures exists i' :: 0 <= i' < |runs[1..]| && runs[1..][i'].key !in m'.records
      {
        assert i > 0 && runs[1..][i - 1] == runs[i];
      }
    }
  }

  /** A successful join keeps the keys and their order, sets on each key named
      by a run the title of the last such run, and leaves every other record
      as it was. */
  lemma {:induction false} EnrichTitles(m: EnrollmentSet, runs: seq<CourseRun>)
    requires Enrich(m, runs).Ok?
    ensures Enrich(m, runs).value.order == m.order
    ensures Enrich(m, runs).value.records.Keys == m.records.Keys
    ensures forall k | k in m.records :: (Enrich(m, runs).value.records[k] ==
      if LastTitle(runs, k).Some? then Record(LastTitle(runs, k)) else m.records[k])
    decreases |runs|
  {
    if runs != [] {
      var m' := SetTitle(m, runs[0].key, runs[0].title);
      EnrichTitles(m', runs[1..]);
    }
  }

  /** Whether the join succeeds depends only on the keys of the set. */
  lemma {:induction false} EnrichOkOnSameKeys(m: EnrollmentSet, n: EnrollmentSet, runs: seq<CourseRun>)
    requires m.records.Keys == n.records.Keys
    requires Enrich(m, runs).Ok?
    ensures Enrich(n, runs).Ok?
    decreases |runs|
  {
    if runs != [] {
      EnrichOkOnSameKeys(SetTitle(m, runs[0].key, runs[0].title), SetTitle(n, runs[0].key, runs[0].title), runs[1..]);
    }
  }

  /** Joining a second time with the same catalog answer changes nothing. */
  lemma EnrichIdempotent(m: EnrollmentSet, runs: seq<CourseRun>)
    requires Enrich(m, runs).Ok?
    ensures Enrich(Enrich(m, runs).value, runs) == Enrich(m, runs)
  {
    var e := Enrich(m, runs).value;
    EnrichTitles(m, runs);
    EnrichOkOnSameKeys(m, e, runs);
    EnrichTitles(e, runs);
    var e2 := Enrich(e, runs).value;
    forall k | k in e.records ensures e2.records[k] == e.records[k] {
      if LastTitle(runs, k).None? {
        assert e2.records[k] == e.records[k];
      }
    }
    assert e2.records == e.records;
    assert e2 == e;
  }

  /** What `get_course_names` returns or lets escape, given the catalog's answer. */
  function JoinTitles(m: EnrollmentSet, catalog: Upstream<seq<CourseRun>>): Result<EnrollmentSet, JoinFailure>
  {
    match catalog
    case Failed => Err(CatalogUnavailable)
    case Answered(runs) => Enrich(m, runs)
  }

  /** `get_course_names`: the catalog is asked once for all keys, comma-joined
      in iteration order; a failed call and an unknown key both escape; the
      titles are then set one course run at a time, by a loop over the runs
      whose result is proved equal to the fold `Enrich`. */
  method GetCourseNames(m: EnrollmentSet, catalog: Upstream<seq<CourseRun>>)
    returns (keys: string, r: Result<EnrollmentSet, JoinFailure>)
    ensures keys == Text.Join(m.order, ',')
    ensures r == JoinTitles(m, catalog)
  {
    keys := Text.Join(m.order, ',');
    if catalog.Failed? {
      return keys, Err(CatalogUnavailable);
    }
    var runs := catalog.body;
    var current := m;
    for i := 0 to |runs|
      invariant Enrich(m, runs) == Enrich(current, runs[i..])
    {
      assert runs[i..][1..] == runs[i + 1..];
      if runs[i].key !in current.records {
        return keys, Err(UnknownCourseRun(runs[i].key));
      }
      current := SetTitle(current, runs[i].key, runs[i].title);
    }
    assert runs[|runs|..] == [];
    r := Ok(current);
  }

  /** Every record carries a title, so reading the titles cannot fail. */
  predicate AllTitled(m: EnrollmentSet) {
    forall k | k in m.records :: m.records[k].title.Some?
  }

  /** The titles in iteration order. */
  function Titles(m: EnrollmentSet): (ts: seq<string>)
    requires AllTitled(m)
    ensures |ts| == |m.order|
    ensures forall i | 0 <= i < |ts| :: m.records[m.order[i]].title == Some(ts[i])
  {
    seq(|m.order|, i requires 0 <= i < |m.order| => m.records[m.order[i]].title.value)
  }

  function FirstUntitledFrom(m: EnrollmentSet, i: nat): (k: CourseKey)
    requires i <= |m.order|
    requires exists j | i <= j < |m.order| :: m.records[m.order[j]].title.None?
    ensures exists j | i <= j < |m.order| :: (m.order[j] == k && m.records[k].title.None? &&
      forall l | i <= l < j :: m.records[m.order[l]].title.Some?)
    decreases |m.order| - i
  {
    if m.records[m.order[i]].title.None? then m.order[i] else FirstUntitledFrom(m, i + 1)
  }

  /** The key of the first record, in iteration order, that has no title. */
  function FirstUntitled(m: EnrollmentSet): (k: CourseKey)
    requires !AllTitled(m)
    ensures k in m.records && m.records[k].title.None?
    ensures exists j | 0 <= j < |m.order| :: (m.order[j] == k &&
      forall l | 0 <= l < j :: m.records[m.order[l]].title.Some?)
  {
    assert exists j | 0 <= j < |m.order| :: m.records[m.order[j]].title.None? by {
      var k :| k in m.records && m.records[k].title.None?;
      var j :| 0 <= j < |m.order| && m.order[j] == k;
    }
    FirstUntitledFrom(m, 0)
  }

  /** An untitled record preceded only by titled ones is the first untitled. */
  lemma FirstUntitledAt(m: EnrollmentSet, i: nat)
    requires i < |m.order| && m.records[m.order[i]].title.None?
    requires forall l | 0 <= l < i :: m.records[m.order[l]].title.Some?
    ensures !AllTitled(m) && FirstUntitled(m) == m.order[i]
  {
  }

  /** Every record is titled once every key in iteration order is. */
  lemma TitledInOrder(m: EnrollmentSet)
    requires forall l | 0 <= l < |m.order| :: m.records[m.order[l]].title.Some?
    ensures AllTitled(m)
  {
  }

  /** The loop that appends one element per title to the speech, in iteration
      order; it stops at the `KeyError` of the first record without a title. */
  method AppendTitles(prefix: string, m: EnrollmentSet) returns (r: Result<string, CourseKey>)
    ensures r.Ok? <==> AllTitled(m)
    ensures r.Ok? ==> r.value == prefix + Text.Paragraphs(Titles(m))
    ensures r.Err? ==> r.error == FirstUntitled(m)
  {
    var speech := prefix;
    ghost var spoken: seq<string> := [];
    for i := 0 to |m.order|
      invariant |spoken| == i
      invariant forall l | 0 <= l < i :: m.records[m.order[l]].title == Some(spoken[l])
      invariant speech == prefix + Text.Paragraphs(spoken)
    {
      var title := m.records[m.order[i]].title;
      if title.None? {
        FirstUntitledAt(m, i);
        return Err(m.order[i]);
      }
      Text.ParagraphsSnoc(spoken, title.value);
      spoken := spoken + [title.value];
      speech := speech + "<p>" + title.value + "</p>";
    }
    TitledInOrder(m);
    assert spoken == Titles(m);
    r := Ok(speech);
  }

  /** A JSON value, for the request bodies and query parameters. */
  datatype Json = JString(s: string) | JInt(i: int) | JBool(b: bool) | JObject(fields: map<string, Json>)

  /** The keyword arguments of the catalog search call in `search_catalog`. */
  function SearchParams(query: string): (p: map<string, Json>)
    ensures p.Keys == {"partner", "end__gt", "content_type", "page", "page_size", "q"}
    ensures p["q"] == JString(query)
  {
    map[
      "partner" := JString("edx"),
      "end__gt" := JString("now"),
      "content_type" := JString("courserun"),
      "page" := JInt(1),
      "page_size" := JInt(10),
      "q" := JString(query)
    ]
  }

  /** The filters are fixed: two searches differ only in the query they pass,
      and both ask for the first page of ten current edX course runs. */
  lemma SearchFiltersFixed(q1: string, q2: string)
    ensures SearchParams(q1)["q" := JString(q2)] == SearchParams(q2)
    ensures SearchParams(q1)["page"] == JInt(1) && SearchParams(q1)["page_size"] == JInt(10)
    ensures SearchParams(q1)["partner"] == JString("edx")
    ensures SearchParams(q1)["content_type"] == JString("courserun")
    ensures SearchParams(q1)["end__gt"] == JString("now")
  {
  }

  /** The body that `_change_enrollment` posts to the LMS. */
  function ChangeEnrollmentBody(courseKey: CourseKey, active: bool): Json
  {
    JObject(map[
      "mode" := JString("audit"),
      "course_details" := JObject(map[
        "course_id" := JString(courseKey),
        "is_active" := JBool(active)
      ])
    ])
  }

  /** How the LMS reads an enrollment change: an audit-mode change of one
      course's active flag, with nothing else in the body. */
  function ReadEnrollmentChange(j: Json): Option<(CourseKey, bool)>
  {
    if j.JObject? && j.fields.Keys == {"mode", "course_details"} && j.fields["mode"] == JString("audit") then
      var details := j.fields["course_details"];
      if details.JObject? && details.fields.Keys == {"course_id", "is_active"}
        && details.fields["course_id"].JString? && details.fields["is_active"].JBool?
      then Some((details.fields["course_id"].s, details.fields["is_active"].b))
      else None
    else None
  }

  /** The body carries exactly the course and the flag asked for, in audit mode. */
  lemma ChangeEnrollmentRoundTrip(courseKey: CourseKey, active: bool)
    ensures ReadEnrollmentChange(ChangeEnrollmentBody(courseKey, active)) == Some((courseKey, active))
  {
  }

  /** The one course the skill can enroll a learner in. */
  const VotingCourse: CourseKey := "course-v1:DavidsonX+DavNowX_Voting+3T2016"

  /** `enroll_user`: the body posted to enroll the learner in the fixed course. */
  function EnrollUserBody(): (j: Json)
    ensures ReadEnrollmentChange(j) == Some((VotingCourse, true))
  {
    ChangeEnrollmentBody(VotingCourse, true)
  }
}
