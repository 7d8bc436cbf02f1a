/** The tag helpers of `backend/app/services/tags.py`: tag slugs,
    order-preserving dedupe, validation of tag ids against an organisation,
    per-task tag state, replacing a task's tags, and per-tag task counts.
    The tag and assignment tables are sequences of rows in table order. */
module TagService {
  import opened Common
  import opened Slugs
  import opened Models

  // ---------------------------------------------------------------------------
  // Slugs

  /** The fallback `"tag"` is itself a finished slug. */
  lemma FallbackIsSlug()
    ensures IsSlug("tag")
  {
    var t := "tag";
    assert t[0] == 't' && t[1] == 'a' && t[2] == 'g';
    assert forall i :: 0 <= i < |t| ==> IsSlugChar(t[i]);
  }

  /** `slugify_tag`: the shared slug rule, with `"tag"` for an empty slug. */
  function SlugifyTag(value: string): (r: string)
    ensures IsSlug(r)
  {
    var slug := SlugCore(value);
    if slug != [] then
      SlugCoreShape(value);
      slug
    else
      FallbackIsSlug();
      "tag"
  }

  /** The tag slug is the value's lower-cased alphanumeric groups joined by
      single dashes, or "tag" when the value has none. */
  lemma SlugifyTagMeaning(value: string)
    ensures Groups(Lower(value)) == [] ==> SlugifyTag(value) == "tag"
    ensures Groups(Lower(value)) != [] ==> SlugifyTag(value) == JoinDash(Groups(Lower(value)))
  {
    SlugCoreGroups(value);
    if Groups(Lower(value)) != [] {
      JoinDashNonEmpty(Groups(Lower(value)));
    }
  }

  /** A finished slug is its own tag slug, so `slugify_tag` is idempotent. */
  lemma SlugifyTagIdempotent(value: string)
    ensures SlugifyTag(SlugifyTag(value)) == SlugifyTag(value)
  {
    SlugCoreFixpoint(SlugifyTag(value));
  }

  /** The fallback is taken exactly when nothing alphanumeric is left. */
  lemma SlugifyTagFallback(value: string)
    ensures SlugifyTag(value) == "tag" <==> SlugCore(value) == [] || SlugCore(value) == "tag"
  {
  }

  // ---------------------------------------------------------------------------
  // Dedupe

  /** The reference dedupe: each element kept at its first occurrence. */
  function Dedupe(s: seq<Id>): seq<Id>
  {
    if s == [] then []
    else
      var d := Dedupe(s[..|s| - 1]);
      if s[|s| - 1] in d then d else d + [s[|s| - 1]]
  }

  ghost predicate NoDups(s: seq<Id>)
  {
    forall i, j :: 0 <= i < j < |s| ==> s[i] != s[j]
  }

  /** Every element has a first occurrence. */
  lemma {:induction false} FirstOccurrenceExists(s: seq<Id>, x: Id)
    requires x in s
    ensures exists k :: 0 <= k < |s| && s[k] == x && x !in s[..k]
  {
    if s[0] == x {
      assert s[0] == x && x !in s[..0];
    } else {
      FirstOccurrenceExists(s[1..], x);
      var k :| 0 <= k < |s[1..]| && s[1..][k] == x && x !in s[1..][..k];
      assert s[..k + 1] == [s[0]] + s[1..][..k];
      assert s[k + 1] == x && x !in s[..k + 1];
    }
  }

  /** Where `x` first occurs in `s`. */
  ghost function FirstIndex(s: seq<Id>, x: Id): (k: nat)
    requires x in s
    ensures k < |s| && s[k] == x && x !in s[..k]
  {
    FirstOccurrenceExists(s, x);
    var k :| 0 <= k < |s| && s[k] == x && x !in s[..k];
    k
  }

  /** The first occurrence in a prefix is the first occurrence overall. */
  lemma FirstIndexPrefix(s: seq<Id>, n: nat, x: Id)
    requires n <= |s| && x in s[..n]
    ensures FirstIndex(s, x) == FirstIndex(s[..n], x)
  {
    var k1 := FirstIndex(s, x);
    var k2 := FirstIndex(s[..n], x);
    assert s[..n][..k2] == s[..k2];
  }

  /** The dedupe keeps exactly the elements of the input, once each. */
  lemma {:induction false} DedupeElements(s: seq<Id>)
    ensures NoDups(Dedupe(s))
    ensures forall x :: x in Dedupe(s) <==> x in s
  {
    if s != [] {
      var p := s[..|s| - 1];
      DedupeElements(p);
      assert s == p + [s[|s| - 1]];
    }
  }

  /** Elements appear in the order of their first occurrence in the input. */
  ghost predicate FirstOccurrenceOrder(src: seq<Id>, s: seq<Id>)
  {
    && (forall x :: x in s ==> x in src)
    && (forall i, j :: 0 <= i < j < |s| ==> FirstIndex(src, s[i]) < FirstIndex(src, s[j]))
  }

  lemma {:induction false} DedupeOrder(s: seq<Id>)
    ensures FirstOccurrenceOrder(s, Dedupe(s))
  {
    DedupeElements(s);
    if s != [] {
      var n := |s| - 1;
      var p := s[..n];
      var d := Dedupe(p);
      DedupeOrder(p);
      DedupeElements(p);
      forall x | x in d ensures FirstIndex(s, x) == FirstIndex(p, x) && FirstIndex(s, x) < n {
        FirstIndexPrefix(s, n, x);
      }
      if s[n] !in d {
        assert s[n] !in p;
        assert s[..n] == p;
        assert FirstIndex(s, s[n]) == n;
        var r := d + [s[n]];
        forall i, j | 0 <= i < j < |r| ensures FirstIndex(s, r[i]) < FirstIndex(s, r[j]) {
          if j < |d| {
            assert r[i] == d[i] && r[j] == d[j];
          } else {
            assert r[i] == d[i] && r[i] in d;
          }
        }
      }
    }
  }

  /** A list without duplicates is its own dedupe. */
  lemma {:induction false} DedupeOfNoDups(s: seq<Id>)
    requires NoDups(s)
    ensures Dedupe(s) == s
  {
    if s != [] {
      var p := s[..|s| - 1];
      DedupeOfNoDups(p);
      assert s[|s| - 1] !in p;
      assert s == p + [s[|s| - 1]];
    }
  }

  lemma DedupeIdempotent(s: seq<Id>)
    ensures Dedupe(Dedupe(s)) == Dedupe(s)
  {
    DedupeElements(s);
    DedupeOfNoDups(Dedupe(s));
  }

  /** `_dedupe_uuid_list`: the loop over `values` with a `seen` set. */
  method DedupeUuidList(values: seq<Id>) returns (deduped: seq<Id>)
    ensures deduped == Dedupe(values)
  {
    deduped := [];
    var seen: set<Id> := {};
    for i := 0 to |values|
      invariant deduped == Dedupe(values[..i])
      invariant forall x :: x in seen <==> x in deduped
    {
      var value := values[i];
      assert values[..i + 1][..i] == values[..i];
      if value in seen {
        continue;
      }
      seen := seen + {value};
      deduped := deduped + [value];
    }
    assert values[..|values|] == values;
  }

  // ---------------------------------------------------------------------------
  // validate_tag_ids

  /** The ids of the organisation's tags. */
  function OrgTagIds(tags: seq<Tag>, organizationId: Id): set<Id>
  {
    set i | 0 <= i < |tags| && tags[i].organizationId == organizationId :: tags[i].id
  }

  /** The ids not in `existing`, in their order. */
  function Absent(ids: seq<Id>, existing: set<Id>): (r: seq<Id>)
    ensures forall x :: x in r <==> x in ids && x !in existing
  {
    if ids == [] then []
    else if ids[0] in existing then Absent(ids[1..], existing)
    else [ids[0]] + Absent(ids[1..], existing)
  }

  /** Dropping the head keeps first-occurrence order. */
  lemma OrderOfTail(src: seq<Id>, ids: seq<Id>)
    requires FirstOccurrenceOrder(src, ids) && ids != []
    ensures FirstOccurrenceOrder(src, ids[1..])
  {
    var rest := ids[1..];
    forall i, j | 0 <= i < j < |rest| ensures FirstIndex(src, rest[i]) < FirstIndex(src, rest[j]) {
      assert rest[i] == ids[i + 1] && rest[j] == ids[j + 1];
    }
  }

  /** An element that occurs in `src` before everything of an ordered list
      can be put in front of it. */
  lemma OrderOfCons(src: seq<Id>, h: Id, tail: seq<Id>)
    requires h in src && FirstOccurrenceOrder(src, tail)
    requires forall y :: y in tail ==> FirstIndex(src, h) < FirstIndex(src, y)
    ensures FirstOccurrenceOrder(src, [h] + tail)
  {
    var r := [h] + tail;
    forall x | x in r ensures x in src {
      if x != h {
        assert x in tail;
      }
    }
    forall i, j | 0 <= i < j < |r| ensures FirstIndex(src, r[i]) < FirstIndex(src, r[j]) {
      OrderOfConsAt(src, h, tail, i, j);
    }
  }

  lemma OrderOfConsAt(src: seq<Id>, h: Id, tail: seq<Id>, i: nat, j: nat)
    requires h in src && FirstOccurrenceOrder(src, tail)
    requires forall y :: y in tail ==> FirstIndex(src, h) < FirstIndex(src, y)
    requires i < j <= |tail|
    ensures FirstIndex(src, ([h] + tail)[i]) < FirstIndex(src, ([h] + tail)[j])
  {
    var r := [h] + tail;
    assert r[j] == tail[j - 1];
    if i == 0 {
      assert r[i] == h && tail[j - 1] in tail;
    } else {
      assert r[i] == tail[i - 1];
      assert FirstIndex(src, tail[i - 1]) < FirstIndex(src, tail[j - 1]);
    }
  }

  /** Filtering keeps first-occurrence order. */
  lemma {:induction false} AbsentKeepsOrder(src: seq<Id>, ids: seq<Id>, existing: set<Id>)
    requires FirstOccurrenceOrder(src, ids)
    ensures FirstOccurrenceOrder(src, Absent(ids, existing))
  {
    if ids != [] {
      var rest := ids[1..];
      OrderOfTail(src, ids);
      AbsentKeepsOrder(src, rest, existing);
      if ids[0] !in existing {
        var tail := Absent(rest, existing);
        forall y | y in tail ensures FirstIndex(src, ids[0]) < FirstIndex(src, y) {
          var k :| 0 <= k < |rest| && rest[k] == y;
          assert ids[k + 1] == y;
        }
        OrderOfCons(src, ids[0], tail);
      }
    }
  }

  const MissingTagsMessage: string := "One or more tags do not exist in this organization."

  /** `validate_tag_ids`: the deduped ids when all belong to the
      organisation, otherwise a 404 listing the missing ones. */
  function ValidateTagIds(tags: seq<Tag>, organizationId: Id, tagIds: seq<Id>): (r: Result<seq<Id>, HttpError>)
    ensures r.Err? ==> r.error.status == NotFound && r.error.detail.MissingIds? && r.error.detail.ids != []
  {
    var normalized := Dedupe(tagIds);
    if normalized == [] then Ok([])
    else
      var missing := Absent(normalized, OrgTagIds(tags, organizationId));
      if missing != [] then Err(HttpError(NotFound, MissingIds(MissingTagsMessage, missing)))
      else Ok(normalized)
  }

  /** The validation accepts exactly when every id is one of the
      organisation's tags, returning the deduped ids; a refusal lists each
      missing id once, in first-occurrence order, and nothing else. */
  lemma ValidateTagIdsSpec(tags: seq<Tag>, organizationId: Id, tagIds: seq<Id>)
    ensures tagIds == [] ==> ValidateTagIds(tags, organizationId, tagIds) == Ok([])
    ensures ValidateTagIds(tags, organizationId, tagIds).Ok? <==>
      forall x :: x in tagIds ==> x in OrgTagIds(tags, organizationId)
    ensures ValidateTagIds(tags, organizationId, tagIds).Ok? ==>
      ValidateTagIds(tags, organizationId, tagIds).value == Dedupe(tagIds)
    ensures ValidateTagIds(tags, organizationId, tagIds).Err? ==>
      var e := ValidateTagIds(tags, organizationId, tagIds).error;
      && e.status == NotFound && e.detail.MissingIds? && e.detail.message == MissingTagsMessage
      && (forall x :: x in e.detail.ids <==> x in tagIds && x !in OrgTagIds(tags, organizationId))
      && NoDups(e.detail.ids)
      && FirstOccurrenceOrder(tagIds, e.detail.ids)
  {
    DedupeElements(tagIds);
    DedupeOrder(tagIds);
    var normalized := Dedupe(tagIds);
    var missing := Absent(normalized, OrgTagIds(tags, organizationId));
    AbsentKeepsOrder(tagIds, normalized, OrgTagIds(tags, organizationId));
    if tagIds != [] {
      assert tagIds[0] in normalized;
      if missing == [] {
        forall x | x in tagIds ensures x in OrgTagIds(tags, organizationId) {
          assert x in normalized;
          assert x !in missing;
        }
      } else {
        var x := missing[0];
        assert x in tagIds && x !in OrgTagIds(tags, organizationId);
      }
    }
  }

  // ---------------------------------------------------------------------------
  // load_tag_state

  /** `TagRef`: the public fields of a tag. */
  datatype TagRef = TagRef(id: Id, name: string, slug: string, color: string)

  /** `TagState`: a task's tag ids and tag refs, in row order. */
  datatype TagState = TagState(tagIds: seq<Id>, tags: seq<TagRef>)

  function Ref(tag: Tag): TagRef
  {
    TagRef(tag.id, tag.name, tag.slug, tag.color)
  }

  /** One `(task_id, Tag)` row of the joined assignment query. */
  type TagRow = (Option<Id>, Tag)

  /** The tags of task `k`'s rows, in row order. */
  function TagsOf(rows: seq<TagRow>, k: Id): seq<Tag>
  {
    if rows == [] then []
    else
      var last := rows[|rows| - 1];
      TagsOf(rows[..|rows| - 1], k) + (if last.0 == Some(k) then [last.1] else [])
  }

  function StateOf(ts: seq<Tag>): (st: TagState)
    ensures |st.tagIds| == |ts| == |st.tags|
    ensures forall i :: 0 <= i < |ts| ==> st.tagIds[i] == ts[i].id && st.tags[i] == Ref(ts[i])
  {
    TagState(seq(|ts|, i requires 0 <= i < |ts| => ts[i].id), seq(|ts|, i requires 0 <= i < |ts| => Ref(ts[i])))
  }

  /** The task ids that occur in the rows (None skipped). */
  function RowTaskIds(rows: seq<TagRow>): set<Id>
  {
    set i | 0 <= i < |rows| && rows[i].0.Some? :: rows[i].0.value
  }

  /** The reference grouping: one state per task id that has a row. */
  function GroupRows(rows: seq<TagRow>): map<Id, TagState>
  {
    map k | k in RowTaskIds(rows) :: StateOf(TagsOf(rows, k))
  }

  lemma {:induction false} TagsOfAbsent(rows: seq<TagRow>, k: Id)
    requires k !in RowTaskIds(rows)
    ensures TagsOf(rows, k) == []
  {
    if rows != [] {
      var p := rows[..|rows| - 1];
      assert RowTaskIds(p) <= RowTaskIds(rows) by {
        forall x | x in RowTaskIds(p) ensures x in RowTaskIds(rows) {
          var i :| 0 <= i < |p| && p[i].0.Some? && p[i].0.value == x;
          assert rows[i] == p[i];
        }
      }
      TagsOfAbsent(p, k);
      assert rows[|rows| - 1].0 != Some(k);
    }
  }

  /** `state.tag_ids.append(tag.id)` and `state.tags.append(TagRef(...))`. */
  function AddTag(st: TagState, t: Tag): TagState
  {
    TagState(st.tagIds + [t.id], st.tags + [Ref(t)])
  }

  lemma StateOfSnoc(ts: seq<Tag>, t: Tag)
    ensures StateOf(ts + [t]) == AddTag(StateOf(ts), t)
  {
  }

  lemma RowTaskIdsSnoc(rows: seq<TagRow>, row: TagRow)
    ensures RowTaskIds(rows + [row]) == RowTaskIds(rows) + (if row.0.Some? then {row.0.value} else {})
  {
    var rs := rows + [row];
    forall x | x in RowTaskIds(rs) ensures x in RowTaskIds(rows) || row.0 == Some(x) {
      var i :| 0 <= i < |rs| && rs[i].0.Some? && rs[i].0.value == x;
      if i < |rows| {
        assert rs[i] == rows[i];
      }
    }
    forall x | x in RowTaskIds(rows) ensures x in RowTaskIds(rs) {
      var i :| 0 <= i < |rows| && rows[i].0.Some? && rows[i].0.value == x;
      assert rs[i] == rows[i];
    }
    if row.0.Some? {
      assert rs[|rows|] == row;
    }
  }

  lemma TagsOfSnoc(rows: seq<TagRow>, row: TagRow, k: Id)
    ensures TagsOf(rows + [row], k) == TagsOf(rows, k) + (if row.0 == Some(k) then [row.1] else [])
  {
    assert (rows + [row])[..|rows|] == rows;
  }

  /** The state of task `k` after one more row. */
  lemma StateAtSnoc(rows: seq<TagRow>, row: TagRow, k: Id)
    ensures StateOf(TagsOf(rows + [row], k)) ==
      if row.0 != Some(k) then StateOf(TagsOf(rows, k))
      else if k in RowTaskIds(rows) then AddTag(StateOf(TagsOf(rows, k)), row.1)
      else AddTag(TagState([], []), row.1)
  {
    TagsOfSnoc(rows, row, k);
    if row.0 == Some(k) {
      StateOfSnoc(TagsOf(rows, k), row.1);
      if k !in RowTaskIds(rows) {
        TagsOfAbsent(rows, k);
      }
    }
  }

  /** Adding one row to the grouping, as the loop of `load_tag_state` does. */
  lemma GroupRowsSnoc(rows: seq<TagRow>, row: TagRow)
    ensures GroupRows(rows + [row]) ==
      if row.0.None? then GroupRows(rows)
      else
        var g := GroupRows(rows);
        g[row.0.value := AddTag(if row.0.value in g then g[row.0.value] else TagState([], []), row.1)]
  {
    RowTaskIdsSnoc(rows, row);
    forall k | k in RowTaskIds(rows + [row]) {
      StateAtSnoc(rows, row, k);
    }
  }

  /** `load_tag_state` over the rows of its query: nothing for an empty
      list of task ids, otherwise the grouping of the rows. */
  method LoadTagState(taskIds: seq<Id>, rows: seq<TagRow>) returns (states: map<Id, TagState>)
    ensures states == if Dedupe(taskIds) == [] then map[] else GroupRows(rows)
  {
    var normalized := DedupeUuidList(taskIds);
    if normalized == [] {
      return map[];
    }
    states := map[];
    for i := 0 to |rows|
      invariant states == GroupRows(rows[..i])
    {
      var row := rows[i];
      assert rows[..i + 1] == rows[..i] + [row];
      GroupRowsSnoc(rows[..i], row);
      if row.0.None? {
        continue;
      }
      var taskId := row.0.value;
      var state := if taskId in states then states[taskId] else TagState([], []);
      states := states[taskId := AddTag(state, row.1)];
    }
    assert rows[..|rows|] == rows;
  }

  /** A task has a state exactly when one of its rows is present; the state
      lists the tags of its rows in row order, ids matching refs. */
  lemma GroupRowsSpec(rows: seq<TagRow>, k: Id)
    ensures k in GroupRows(rows) <==> exists i :: 0 <= i < |rows| && rows[i].0 == Some(k)
    ensures k in GroupRows(rows) ==>
      var st := GroupRows(rows)[k];
      && st.tagIds != []
      && |st.tagIds| == |st.tags|
      && (forall i :: 0 <= i < |st.tags| ==> st.tags[i].id == st.tagIds[i])
  {
    if k in GroupRows(rows) {
      TagsOfNonEmpty(rows, k);
    }
  }

  lemma {:induction false} TagsOfNonEmpty(rows: seq<TagRow>, k: Id)
    requires k in RowTaskIds(rows)
    ensures TagsOf(rows, k) != []
  {
    var p := rows[..|rows| - 1];
    if rows[|rows| - 1].0 != Some(k) {
      var i :| 0 <= i < |rows| && rows[i].0 == Some(k);
      assert p[i] == rows[i];
      TagsOfNonEmpty(p, k);
    }
  }

  // ---------------------------------------------------------------------------
  // The tag and assignment tables

  /** The tag rows and the tag-assignment rows, in table order. */
  class TagDb {
    var tags: seq<Tag>
    var assignments: seq<TagAssignment>

    constructor (tagRows: seq<Tag>, assignmentRows: seq<TagAssignment>)
      ensures tags == tagRows && assignments == assignmentRows
    {
      tags := tagRows;
      assignments := assignmentRows;
    }

    /** `replace_tags`: the task's rows are deleted, then one row per
        deduped tag id is added, in order. */
    method ReplaceTags(taskId: Id, tagIds: seq<Id>, now: int)
      modifies this
      ensures tags == old(tags)
      ensures assignments == OtherTasks(old(assignments), taskId) + NewAssignments(taskId, Dedupe(tagIds), now)
    {
      var normalized := DedupeUuidList(tagIds);
      assignments := OtherTasks(assignments, taskId);
      ghost var kept := assignments;
      for i := 0 to |normalized|
        invariant tags == old(tags)
        invariant assignments == kept + NewAssignments(taskId, normalized[..i], now)
      {
        assert normalized[..i + 1] == normalized[..i] + [normalized[i]];
        assignments := assignments + [TagAssignment(Some(taskId), normalized[i], now)];
      }
      assert normalized[..|normalized|] == normalized;
    }
  }

  /** The rows that survive `DELETE ... WHERE task_id = taskId`. */
  function OtherTasks(rows: seq<TagAssignment>, taskId: Id): seq<TagAssignment>
  {
    if rows == [] then []
    else OtherTasks(rows[..|rows| - 1], taskId)
         + (if rows[|rows| - 1].taskId == Some(taskId) then [] else [rows[|rows| - 1]])
  }

  function NewAssignments(taskId: Id, tagIds: seq<Id>, now: int): (r: seq<TagAssignment>)
    ensures |r| == |tagIds|
    ensures forall i :: 0 <= i < |r| ==> r[i] == TagAssignment(Some(taskId), tagIds[i], now)
  {
    seq(|tagIds|, i requires 0 <= i < |tagIds| => TagAssignment(Some(taskId), tagIds[i], now))
  }

  /** The tag ids assigned to a task, in row order. */
  function TagIdsOfTask(rows: seq<TagAssignment>, taskId: Id): seq<Id>
  {
    if rows == [] then []
    else TagIdsOfTask(rows[..|rows| - 1], taskId)
         + (if rows[|rows| - 1].taskId == Some(taskId) then [rows[|rows| - 1].tagId] else [])
  }

  lemma {:induction false} TagIdsOfTaskAppend(x: seq<TagAssignment>, y: seq<TagAssignment>, taskId: Id)
    ensures TagIdsOfTask(x + y, taskId) == TagIdsOfTask(x, taskId) + TagIdsOfTask(y, taskId)
  {
    if y != [] {
      var z := x + y;
      assert z[..|z| - 1] == x + y[..|y| - 1];
      TagIdsOfTaskAppend(x, y[..|y| - 1], taskId);
    } else {
      assert x + y == x;
    }
  }

  lemma {:induction false} TagIdsOfOtherTasks(rows: seq<TagAssignment>, taskId: Id, other: Id)
    ensures TagIdsOfTask(OtherTasks(rows, taskId), taskId) == []
    ensures other != taskId ==> TagIdsOfTask(OtherTasks(rows, taskId), other) == TagIdsOfTask(rows, other)
  {
    if rows != [] {
      var p := rows[..|rows| - 1];
      var last := rows[|rows| - 1];
      TagIdsOfOtherTasks(p, taskId, other);
      var tail := if last.taskId == Some(taskId) then [] else [last];
      TagIdsOfTaskAppend(OtherTasks(p, taskId), tail, taskId);
      TagIdsOfTaskAppend(OtherTasks(p, taskId), tail, other);
      assert tail == [] || [last][..0] == [];
    }
  }

  lemma {:induction false} TagIdsOfNewAssignments(taskId: Id, tagIds: seq<Id>, now: int, other: Id)
    ensures TagIdsOfTask(NewAssignments(taskId, tagIds, now), taskId) == tagIds
    ensures other != taskId ==> TagIdsOfTask(NewAssignments(taskId, tagIds, now), other) == []
  {
    if tagIds != [] {
      var p := tagIds[..|tagIds| - 1];
      var rows := NewAssignments(taskId, tagIds, now);
      assert rows[..|rows| - 1] == NewAssignments(taskId, p, now);
      TagIdsOfNewAssignments(taskId, p, now, other);
    }
  }

  /** After `replace_tags` the task carries exactly the deduped ids, in
      order, and every other task keeps its tags. */
  lemma ReplaceTagsEffect(rows: seq<TagAssignment>, taskId: Id, tagIds: seq<Id>, now: int, other: Id)
    ensures var after := OtherTasks(rows, taskId) + NewAssignments(taskId, Dedupe(tagIds), now);
      && TagIdsOfTask(after, taskId) == Dedupe(tagIds)
      && (other != taskId ==> TagIdsOfTask(after, other) == TagIdsOfTask(rows, other))
  {
    var kept := OtherTasks(rows, taskId);
    var added := NewAssignments(taskId, Dedupe(tagIds), now);
    TagIdsOfTaskAppend(kept, added, taskId);
    TagIdsOfTaskAppend(kept, added, other);
    TagIdsOfOtherTasks(rows, taskId, other);
    TagIdsOfNewAssignments(taskId, Dedupe(tagIds), now, other);
  }

  // ---------------------------------------------------------------------------
  // task_counts_for_tags

  /** `COUNT(task_id)` over the tag's rows: rows with a null task are not counted. */
  function CountTasks(rows: seq<TagAssignment>, tagId: Id): nat
  {
    if rows == [] then 0
    else
      var last := rows[|rows| - 1];
      CountTasks(rows[..|rows| - 1], tagId) + (if last.tagId == tagId && last.taskId.Some? then 1 else 0)
  }

  /** The tag has a group in `GROUP BY tag_id`. */
  predicate HasRow(rows: seq<TagAssignment>, tagId: Id)
  {
    exists i | 0 <= i < |rows| :: rows[i].tagId == tagId
  }

  /** `task_counts_for_tags`: a count for each requested tag that has rows. */
  function TaskCountsForTags(rows: seq<TagAssignment>, tagIds: seq<Id>): (r: map<Id, nat>)
    ensures tagIds == [] ==> r == map[]
    ensures forall t :: t in r <==> t in tagIds && HasRow(rows, t)
    ensures forall t :: t in r ==> r[t] == CountTasks(rows, t)
  {
    DedupeElements(tagIds);
    var normalized := Dedupe(tagIds);
    if normalized == [] then map[]
    else map t | t in normalized && HasRow(rows, t) :: CountTasks(rows, t)
  }

  lemma {:induction false} CountTasksAppend(x: seq<TagAssignment>, y: seq<TagAssignment>, tagId: Id)
    ensures CountTasks(x + y, tagId) == CountTasks(x, tagId) + CountTasks(y, tagId)
  {
    if y != [] {
      var z := x + y;
      assert z[..|z| - 1] == x + y[..|y| - 1];
      CountTasksAppend(x, y[..|y| - 1], tagId);
    } else {
      assert x + y == x;
    }
  }

  lemma {:induction false} CountNewAssignments(taskId: Id, tagIds: seq<Id>, now: int, tagId: Id)
    requires NoDups(tagIds)
    ensures CountTasks(NewAssignments(taskId, tagIds, now), tagId) == if tagId in tagIds then 1 else 0
  {
    if tagIds != [] {
      var p := tagIds[..|tagIds| - 1];
      var rows := NewAssignments(taskId, tagIds, now);
      assert rows[..|rows| - 1] == NewAssignments(taskId, p, now);
      CountNewAssignments(taskId, p, now, tagId);
      assert tagIds == p + [tagIds[|tagIds| - 1]];
    }
  }

  /** Replacing a task's tags counts that task once for each of its new
      tags, on top of what the other tasks' rows count. */
  lemma ReplaceTagsCounts(rows: seq<TagAssignment>, taskId: Id, tagIds: seq<Id>, now: int, tagId: Id)
    ensures CountTasks(OtherTasks(rows, taskId) + NewAssignments(taskId, Dedupe(tagIds), now), tagId)
            == CountTasks(OtherTasks(rows, taskId), tagId) + (if tagId in tagIds then 1 else 0)
  {
    DedupeElements(tagIds);
    CountTasksAppend(OtherTasks(rows, taskId), NewAssignments(taskId, Dedupe(tagIds), now), tagId);
    CountNewAssignments(taskId, Dedupe(tagIds), now, tagId);
  }
}
