/** The tag endpoints of `backend/app/api/tags.py` over the tag and
    assignment tables: slug normalisation, organisation-scoped lookup, the
    slug-availability check, the read model with task counts, and create,
    update and delete. A tag's `(organization_id, slug)` pair is unique in
    the table, and every endpoint that writes keeps it so. */
module TagApi {
  import opened Common
  import opened Slugs
  import opened Models
  import opened TagService

  // ---------------------------------------------------------------------------
  // The table invariant

  ghost predicate TagTableValid(tags: seq<Tag>)
  {
    && (forall i, j :: 0 <= i < j < |tags| ==> tags[i].id != tags[j].id)
    && (forall i, j :: 0 <= i < j < |tags| ==>
          tags[i].organizationId != tags[j].organizationId || tags[i].slug != tags[j].slug)
  }

  // ---------------------------------------------------------------------------
  // Helpers

  /** `_normalize_slug`: the slug of the stripped slug, or of the fallback
      name when nothing is left of it. */
  function NormalizeSlug(slug: Option<string>, fallbackName: string): (r: string)
    ensures IsSlug(r)
  {
    var stripped := Strip(if slug.Some? then slug.value else "", Whitespace);
    var source := if stripped != "" then stripped else fallbackName;
    SlugifyTag(source)
  }

  /** A finished slug has no whitespace at either end. */
  lemma SlugIsStripped(s: string)
    requires IsSlug(s)
    ensures Strip(s, Whitespace) == s
  {
    assert IsSlugChar(s[0]) && IsSlugChar(s[|s| - 1]);
    StripFixpoint(s, Whitespace);
  }

  /** A slug given explicitly wins over the name; a normalised slug given
      back is kept as it is, whatever the name. */
  lemma NormalizeSlugSpec(slug: Option<string>, fallbackName: string, otherName: string)
    ensures slug.Some? && Strip(slug.value, Whitespace) != "" ==>
      NormalizeSlug(slug, fallbackName) == SlugifyTag(Strip(slug.value, Whitespace))
    ensures slug.None? || Strip(slug.value, Whitespace) == "" ==>
      NormalizeSlug(slug, fallbackName) == SlugifyTag(fallbackName)
    ensures NormalizeSlug(Some(NormalizeSlug(slug, fallbackName)), otherName) == NormalizeSlug(slug, fallbackName)
  {
    var r := NormalizeSlug(slug, fallbackName);
    SlugIsStripped(r);
    SlugCoreFixpoint(r);
    if slug.None? {
      assert Strip("", Whitespace) == "";
    }
  }

  /** `Tag.objects.by_id(tag_id).first()`: the row with that id. */
  function TagIndex(tags: seq<Tag>, tagId: Id): (r: Option<nat>)
    ensures r.Some? ==> r.value < |tags| && tags[r.value].id == tagId
    ensures r.None? ==> forall i :: 0 <= i < |tags| ==> tags[i].id != tagId
  {
    if tags == [] then None
    else if tags[0].id == tagId then Some(0)
    else match TagIndex(tags[1..], tagId)
      case None => None
      case Some(k) => Some(k + 1)
  }

  /** `_require_org_tag`: 404 for an unknown id, 403 for another
      organisation's tag, otherwise the row's position. */
  function RequireOrgTag(tags: seq<Tag>, tagId: Id, organizationId: Id): (r: Result<nat, HttpError>)
    ensures r.Ok? ==> r.value < |tags| && tags[r.value].id == tagId && tags[r.value].organizationId == organizationId
    ensures r.Err? ==> r.error.detail == NoDetail
    ensures r == Err(HttpError(NotFound, NoDetail)) <==> forall i :: 0 <= i < |tags| ==> tags[i].id != tagId
    ensures r == Err(HttpError(Forbidden, NoDetail)) <==>
      exists i :: 0 <= i < |tags| && tags[i].id == tagId && TagIndex(tags, tagId) == Some(i) && tags[i].organizationId != organizationId
  {
    match TagIndex(tags, tagId)
    case None => Err(HttpError(NotFound, NoDetail))
    case Some(i) => if tags[i].organizationId != organizationId then Err(HttpError(Forbidden, NoDetail)) else Ok(i)
  }

  /** `Tag.objects.filter_by(organization_id=..., slug=...).first()`. */
  function TagBySlug(tags: seq<Tag>, organizationId: Id, slug: string): (r: Option<nat>)
    ensures r.Some? ==> r.value < |tags| && tags[r.value].organizationId == organizationId && tags[r.value].slug == slug
    ensures r.None? ==> forall i :: 0 <= i < |tags| ==> tags[i].organizationId != organizationId || tags[i].slug != slug
  {
    if tags == [] then None
    else if tags[0].organizationId == organizationId && tags[0].slug == slug then Some(0)
    else match TagBySlug(tags[1..], organizationId, slug)
      case None => None
      case Some(k) => Some(k + 1)
  }

  const SlugTakenMessage: string := "Tag slug already exists in this organization."

  /** `_ensure_slug_available`: free, or held by the excluded tag itself. */
  function EnsureSlugAvailable(tags: seq<Tag>, organizationId: Id, slug: string, excludeTagId: Option<Id>): (r: Result<(), HttpError>)
    ensures r.Err? ==> r == Err(HttpError(Conflict, Text(SlugTakenMessage)))
    ensures excludeTagId.None? ==>
      (r.Ok? <==> forall i :: 0 <= i < |tags| ==> tags[i].organizationId != organizationId || tags[i].slug != slug)
  {
    match TagBySlug(tags, organizationId, slug)
    case None => Ok(())
    case Some(i) =>
      if excludeTagId.Some? && tags[i].id == excludeTagId.value then Ok(())
      else Err(HttpError(Conflict, Text(SlugTakenMessage)))
  }

  /** In a valid table the check passes exactly when no tag of the
      organisation other than the excluded one holds the slug. */
  lemma EnsureSlugAvailableSpec(tags: seq<Tag>, organizationId: Id, slug: string, excludeTagId: Option<Id>)
    requires TagTableValid(tags)
    ensures EnsureSlugAvailable(tags, organizationId, slug, excludeTagId).Ok? <==>
      forall i :: 0 <= i < |tags| && tags[i].organizationId == organizationId && tags[i].slug == slug ==>
        excludeTagId == Some(tags[i].id)
    ensures EnsureSlugAvailable(tags, organizationId, slug, excludeTagId).Err? ==>
      EnsureSlugAvailable(tags, organizationId, slug, excludeTagId) == Err(HttpError(Conflict, Text(SlugTakenMessage)))
  {
    match TagBySlug(tags, organizationId, slug)
    case None =>
    case Some(j) =>
      forall i | 0 <= i < |tags| && tags[i].organizationId == organizationId && tags[i].slug == slug
        ensures i == j
      {
      }
  }

  // ---------------------------------------------------------------------------
  // Reads

  /** `TagRead`: the tag and the number of its tagged tasks. */
  datatype TagRead = TagRead(tag: Tag, taskCount: nat)

  lemma {:induction false} NoRowNoCount(rows: seq<TagAssignment>, tagId: Id)
    requires !HasRow(rows, tagId)
    ensures CountTasks(rows, tagId) == 0
  {
    if rows != [] {
      var p := rows[..|rows| - 1];
      assert !HasRow(p, tagId) by {
        forall i | 0 <= i < |p| ensures p[i].tagId != tagId {
          assert p[i] == rows[i];
        }
      }
      NoRowNoCount(p, tagId);
    }
  }

  function Ids(items: seq<Tag>): (r: seq<Id>)
    ensures |r| == |items| && forall i :: 0 <= i < |items| ==> r[i] == items[i].id
  {
    seq(|items|, i requires 0 <= i < |items| => items[i].id)
  }

  /** `_tag_read_page`: each item, in order, with its count (0 when the
      counting query has no group for it). */
  function TagReadPage(items: seq<Tag>, assignments: seq<TagAssignment>): (r: seq<TagRead>)
    ensures |r| == |items|
    ensures forall i :: 0 <= i < |items| ==> r[i] == TagRead(items[i], CountTasks(assignments, items[i].id))
  {
    if items == [] then []
    else
      var counts := TaskCountsForTags(assignments, Ids(items));
      PageCounts(items, assignments, counts);
      seq(|items|, i requires 0 <= i < |items| =>
        TagRead(items[i], if items[i].id in counts then counts[items[i].id] else 0))
  }

  /** `counts.get(item.id, 0)` is the item's count. */
  lemma PageCounts(items: seq<Tag>, assignments: seq<TagAssignment>, counts: map<Id, nat>)
    requires counts == TaskCountsForTags(assignments, Ids(items))
    ensures forall i :: 0 <= i < |items| ==>
      (if items[i].id in counts then counts[items[i].id] else 0) == CountTasks(assignments, items[i].id)
  {
    forall i | 0 <= i < |items|
      ensures (if items[i].id in counts then counts[items[i].id] else 0) == CountTasks(assignments, items[i].id)
    {
      if items[i].id !in counts {
        assert items[i].id in Ids(items);
        NoRowNoCount(assignments, items[i].id);
      }
    }
  }

  /** `get_tag`: the organisation's tag with `COUNT(task_id)` of its rows. */
  function GetTag(tags: seq<Tag>, assignments: seq<TagAssignment>, tagId: Id, organizationId: Id): (r: Result<TagRead, HttpError>)
    ensures r.Err? <==> RequireOrgTag(tags, tagId, organizationId).Err?
    ensures r.Err? ==> r.error == RequireOrgTag(tags, tagId, organizationId).error
    ensures r.Ok? ==> r.value.tag.id == tagId && r.value.tag.organizationId == organizationId
    ensures r.Ok? ==> r.value.tag in tags && r.value.taskCount == CountTasks(assignments, tagId)
  {
    match RequireOrgTag(tags, tagId, organizationId)
    case Err(e) => Err(e)
    case Ok(i) => Ok(TagRead(tags[i], CountTasks(assignments, tags[i].id)))
  }

  /** A tag read alone and the same tag on a page show the same count. */
  lemma GetTagAgreesWithPage(tags: seq<Tag>, assignments: seq<TagAssignment>, tagId: Id, organizationId: Id)
    ensures GetTag(tags, assignments, tagId, organizationId).Ok? ==>
      var read := GetTag(tags, assignments, tagId, organizationId).value;
      TagReadPage([read.tag], assignments) == [read]
  {
  }

  // ---------------------------------------------------------------------------
  // Writes

  datatype TagCreate = TagCreate(name: string, slug: Option<string>, color: string, description: string)

  /** The fields set in a `TagUpdate`; `slug` may be set to null. */
  datatype TagUpdate = TagUpdate(name: Option<string>, slug: Option<Option<string>>, color: Option<string>, description: Option<string>)

  /** `create_tag`: a 409 when the normalised slug is taken in the
      organisation, otherwise a new row with that slug. */
  method CreateTag(db: TagDb, organizationId: Id, payload: TagCreate, newId: Id, now: int) returns (r: Result<Tag, HttpError>)
    requires TagTableValid(db.tags)
    requires forall i :: 0 <= i < |db.tags| ==> db.tags[i].id != newId
    modifies db
    ensures TagTableValid(db.tags) && db.assignments == old(db.assignments)
    ensures var slug := NormalizeSlug(payload.slug, payload.name);
      if EnsureSlugAvailable(old(db.tags), organizationId, slug, None).Err? then
        r == Err(HttpError(Conflict, Text(SlugTakenMessage))) && db.tags == old(db.tags)
      else
        && r == Ok(Tag(newId, organizationId, payload.name, slug, payload.color, payload.description, now))
        && db.tags == old(db.tags) + [r.value]
  {
    var slug := NormalizeSlug(payload.slug, payload.name);
    r := InsertTag(db, Tag(newId, organizationId, payload.name, slug, payload.color, payload.description, now));
  }

  /** The write half of `create_tag`: a 409 when the new row's slug is
      taken in its organisation, otherwise the row appended. */
  method InsertTag(db: TagDb, tag: Tag) returns (r: Result<Tag, HttpError>)
    requires TagTableValid(db.tags)
    requires forall i :: 0 <= i < |db.tags| ==> db.tags[i].id != tag.id
    modifies db
    ensures TagTableValid(db.tags) && db.assignments == old(db.assignments)
    ensures if EnsureSlugAvailable(old(db.tags), tag.organizationId, tag.slug, None).Err? then
        r == Err(HttpError(Conflict, Text(SlugTakenMessage))) && db.tags == old(db.tags)
      else
        r == Ok(tag) && db.tags == old(db.tags) + [tag]
  {
    var check := EnsureSlugAvailable(db.tags, tag.organizationId, tag.slug, None);
    EnsureSlugAvailableSpec(db.tags, tag.organizationId, tag.slug, None);
    if check.Err? {
      return Err(check.error);
    }
    AppendKeepsValid(db.tags, tag);
    db.tags := db.tags + [tag];
    r := Ok(tag);
  }

  lemma AppendKeepsValid(tags: seq<Tag>, tag: Tag)
    requires TagTableValid(tags)
    requires forall i :: 0 <= i < |tags| ==> tags[i].id != tag.id
    requires forall i :: 0 <= i < |tags| ==> tags[i].organizationId != tag.organizationId || tags[i].slug != tag.slug
    ensures TagTableValid(tags + [tag])
  {
  }

  /** The row `update_tag` writes: the set fields, the slug when it was
      normalised, and the update time. */
  function Patched(tag: Tag, payload: TagUpdate, slug: string, now: int): (r: Tag)
    ensures r.id == tag.id && r.organizationId == tag.organizationId && r.slug == slug && r.updatedAt == now
    ensures payload.name.None? ==> r.name == tag.name
    ensures payload.color.None? ==> r.color == tag.color
    ensures payload.description.None? ==> r.description == tag.description
  {
    tag.(name := if payload.name.Some? then payload.name.value else tag.name,
         slug := slug,
         color := if payload.color.Some? then payload.color.value else tag.color,
         description := if payload.description.Some? then payload.description.value else tag.description,
         updatedAt := now)
  }

  /** The slug `update_tag` ends with: re-normalised (falling back on the
      new name when it is non-empty, else the current name) only when the
      slug field was set. */
  function UpdatedSlug(tag: Tag, payload: TagUpdate): (r: string)
    ensures payload.slug.None? ==> r == tag.slug
    ensures payload.slug.Some? ==> IsSlug(r)
  {
    if payload.slug.Some? then
      NormalizeSlug(payload.slug.value,
                    if payload.name.Some? && payload.name.value != "" then payload.name.value else tag.name)
    else tag.slug
  }

  /** `update_tag`: the organisation's tag; a 409 when a new slug is held by
      another tag of the organisation; otherwise the patched row. */
  method UpdateTag(db: TagDb, organizationId: Id, tagId: Id, payload: TagUpdate, now: int) returns (r: Result<Tag, HttpError>)
    requires TagTableValid(db.tags)
    modifies db
    ensures TagTableValid(db.tags) && db.assignments == old(db.assignments)
    ensures RequireOrgTag(old(db.tags), tagId, organizationId).Err? ==>
      r == Err(RequireOrgTag(old(db.tags), tagId, organizationId).error) && db.tags == old(db.tags)
    ensures RequireOrgTag(old(db.tags), tagId, organizationId).Ok? ==>
      var i := RequireOrgTag(old(db.tags), tagId, organizationId).value;
      var tag := old(db.tags)[i];
      if payload.slug.Some? && EnsureSlugAvailable(old(db.tags), organizationId, UpdatedSlug(tag, payload), Some(tag.id)).Err? then
        r == Err(HttpError(Conflict, Text(SlugTakenMessage))) && db.tags == old(db.tags)
      else
        && r == Ok(Patched(tag, payload, UpdatedSlug(tag, payload), now))
        && db.tags == old(db.tags)[i := r.value]
  {
    var found := RequireOrgTag(db.tags, tagId, organizationId);
    if found.Err? {
      return Err(found.error);
    }
    var tag := db.tags[found.value];
    r := ReplaceTag(db, found.value, Patched(tag, payload, UpdatedSlug(tag, payload), now), payload.slug.Some?);
  }

  /** The write half of `update_tag`: row `i` replaced by `updated`, unless
      the slug was set and another tag of the organisation holds it, which
      is a 409. */
  method ReplaceTag(db: TagDb, i: nat, updated: Tag, slugSet: bool) returns (r: Result<Tag, HttpError>)
    requires TagTableValid(db.tags) && i < |db.tags|
    requires updated.id == db.tags[i].id && updated.organizationId == db.tags[i].organizationId
    requires !slugSet ==> updated.slug == db.tags[i].slug
    modifies db
    ensures TagTableValid(db.tags) && db.assignments == old(db.assignments)
    ensures if slugSet && EnsureSlugAvailable(old(db.tags), updated.organizationId, updated.slug, Some(updated.id)).Err? then
        r == Err(HttpError(Conflict, Text(SlugTakenMessage))) && db.tags == old(db.tags)
      else
        r == Ok(updated) && db.tags == old(db.tags)[i := updated]
  {
    if slugSet {
      var check := EnsureSlugAvailable(db.tags, updated.organizationId, updated.slug, Some(updated.id));
      EnsureSlugAvailableSpec(db.tags, updated.organizationId, updated.slug, Some(updated.id));
      if check.Err? {
        return Err(check.error);
      }
    } else {
      OneHolderPerSlug(db.tags, i);
    }
    KeepsValid(db.tags, i, updated);
    db.tags := db.tags[i := updated];
    r := Ok(updated);
  }

  /** In a valid table a tag is the only holder of its slug in its
      organisation. */
  lemma OneHolderPerSlug(tags: seq<Tag>, i: nat)
    requires TagTableValid(tags) && i < |tags|
    ensures forall j :: 0 <= j < |tags| && tags[j].organizationId == tags[i].organizationId && tags[j].slug == tags[i].slug ==>
      tags[j].id == tags[i].id
  {
    forall j | 0 <= j < |tags| && tags[j].organizationId == tags[i].organizationId && tags[j].slug == tags[i].slug
      ensures j == i
    {
    }
  }

  /** Replacing row `i` keeps the table valid when the id is kept and no
      other tag of the organisation holds the new slug. */
  lemma KeepsValid(tags: seq<Tag>, i: nat, updated: Tag)
    requires TagTableValid(tags) && i < |tags|
    requires updated.id == tags[i].id && updated.organizationId == tags[i].organizationId
    requires forall j :: 0 <= j < |tags| && tags[j].organizationId == updated.organizationId && tags[j].slug == updated.slug ==>
      tags[j].id == updated.id
    ensures TagTableValid(tags[i := updated])
  {
    var t := tags[i := updated];
    forall a, b | 0 <= a < b < |t| ensures t[a].organizationId != t[b].organizationId || t[a].slug != t[b].slug {
    }
  }

  /** Rows left after `DELETE FROM tag_assignments WHERE tag_id = ...`. */
  function WithoutTag(rows: seq<TagAssignment>, tagId: Id): (r: seq<TagAssignment>)
    ensures forall a :: a in r <==> a in rows && a.tagId != tagId
    ensures |r| <= |rows|
  {
    if rows == [] then []
    else if rows[0].tagId == tagId then WithoutTag(rows[1..], tagId)
    else [rows[0]] + WithoutTag(rows[1..], tagId)
  }

  /** `delete_tag`: the organisation's tag and every assignment that
      references it are removed; nothing else changes. */
  method DeleteTag(db: TagDb, organizationId: Id, tagId: Id) returns (r: Result<(), HttpError>)
    requires TagTableValid(db.tags)
    modifies db
    ensures TagTableValid(db.tags)
    ensures RequireOrgTag(old(db.tags), tagId, organizationId).Err? ==>
      r == Err(RequireOrgTag(old(db.tags), tagId, organizationId).error)
      && db.tags == old(db.tags) && db.assignments == old(db.assignments)
    ensures RequireOrgTag(old(db.tags), tagId, organizationId).Ok? ==>
      var i := RequireOrgTag(old(db.tags), tagId, organizationId).value;
      && r == Ok(())
      && db.tags == old(db.tags)[..i] + old(db.tags)[i + 1..]
      && db.assignments == WithoutTag(old(db.assignments), tagId)
  {
    var found := RequireOrgTag(db.tags, tagId, organizationId);
    if found.Err? {
      return Err(found.error);
    }
    var i := found.value;
    db.assignments := WithoutTag(db.assignments, db.tags[i].id);
    RemovalKeepsValid(db.tags, i);
    db.tags := db.tags[..i] + db.tags[i + 1..];
    r := Ok(());
  }

  lemma RemovalKeepsValid(tags: seq<Tag>, i: nat)
    requires TagTableValid(tags) && i < |tags|
    ensures TagTableValid(tags[..i] + tags[i + 1..])
  {
    var t := tags[..i] + tags[i + 1..];
    assert forall a :: 0 <= a < |t| ==> t[a] == tags[if a < i then a else a + 1];
  }

  /** After a deletion no tag of the table is the deleted one, and the
      assignments of every other tag are exactly the ones they had. */
  lemma DeleteCascade(rows: seq<TagAssignment>, tagId: Id, other: Id)
    requires other != tagId
    ensures forall a :: a in WithoutTag(rows, tagId) ==> a.tagId != tagId
    ensures forall a :: a in rows && a.tagId == other ==> a in WithoutTag(rows, tagId)
    ensures CountTasks(WithoutTag(rows, tagId), other) == CountTasks(rows, other)
    ensures CountTasks(WithoutTag(rows, tagId), tagId) == 0
  {
    CountWithoutTag(rows, tagId, other);
  }

  lemma {:induction false} CountWithoutTag(rows: seq<TagAssignment>, tagId: Id, other: Id)
    requires other != tagId
    ensures CountTasks(WithoutTag(rows, tagId), other) == CountTasks(rows, other)
    ensures CountTasks(WithoutTag(rows, tagId), tagId) == 0
  {
    if rows != [] {
      var h, t := rows[0], rows[1..];
      assert rows == [h] + t;
      CountWithoutTag(t, tagId, other);
      CountCons(h, t, other);
      CountCons(h, t, tagId);
      if h.tagId != tagId {
        CountCons(h, WithoutTag(t, tagId), other);
        CountCons(h, WithoutTag(t, tagId), tagId);
      }
    }
  }

  /** The count over a row and the rows after it. */
  lemma CountCons(h: TagAssignment, t: seq<TagAssignment>, tagId: Id)
    ensures CountTasks([h] + t, tagId) == (if h.tagId == tagId && h.taskId.Some? then 1 else 0) + CountTasks(t, tagId)
  {
    CountTasksAppend([h], t, tagId);
  }
}
