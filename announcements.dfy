/** The announcement lifecycle of src/pages/AnnouncementsPage.tsx: saving a
    draft or a published announcement, publishing and archiving a stored
    one, the notifications a publication fans out to, and the list filter
    and statistics. Every handler returns the record it writes; `now` is the
    ISO text of the current time and `nowMs` the same instant as a
    timestamp. */
module Announcements {
  import opened Collections
  import opened Text
  import opened Session
  import Bills
  import opened Notifications

  /** A stored announcement. `owner` is `_uid`; `publishedAt` is `None` when
      the record has no `published_at`. */
  datatype Announcement = Announcement(
    id: string, owner: string, title: string, content: string, priority: string,
    targetRole: string, targetBuildingId: string, status: string, createdBy: string,
    createdAt: string, publishedAt: Option<string>)

  datatype AnnouncementForm = AnnouncementForm(
    title: string, content: string, priority: string, targetRole: string, targetBuildingId: string)

  /** `announcements.find(a => a._id === id)`. */
  function Lookup(announcements: seq<Announcement>, id: string): (r: Option<Announcement>)
    ensures r.Some? ==> r.value in announcements && r.value.id == id
    ensures r.None? <==> forall a :: a in announcements ==> a.id != id
  {
    Find(announcements, (a: Announcement) => a.id == id)
  }

  // ---------------------------------------------------------------------
  // Fan-out

  /** The notification text: the first 100 characters of the content, and
      "..." when some were cut. */
  function Message(content: string): (m: string)
    ensures |content| <= 100 ==> m == content
    ensures |content| > 100 ==> |m| == 103 && m[..100] == content[..100] && m[100..] == "..."
    ensures |m| == if |content| > 100 then 103 else |content|
  {
    Take(content, 100) + (if |content| > 100 then "..." else "")
  }

  /** The non-empty resident ids of the units of building `buildingId`. */
  function ResidentIds(units: seq<Bills.Unit>, buildingId: string): (ids: seq<string>)
    ensures forall id :: id in ids <==>
      id != "" && exists u :: u in units && u.buildingId == buildingId && u.residentId == id
  {
    var inBuilding := Filter(units, (u: Bills.Unit) => u.buildingId == buildingId);
    var ids := Map(inBuilding, (u: Bills.Unit) => u.residentId);
    assert forall id :: id in ids <==> exists u :: u in inBuilding && u.residentId == id by {
      forall id ensures id in ids <==> exists u :: u in inBuilding && u.residentId == id {
        if id in ids {
          var i :| 0 <= i < |ids| && ids[i] == id;
          assert inBuilding[i] in inBuilding;
        }
        if exists u :: u in inBuilding && u.residentId == id {
          var u :| u in inBuilding && u.residentId == id;
          var i :| 0 <= i < |inBuilding| && inBuilding[i] == u;
          assert ids[i] == id;
        }
      }
    }
    Filter(ids, (id: string) => id != "")
  }

  /** The profile has the target role (any role for `'all'`) and, when a
      building is targeted, lives in one of its units. */
  predicate Targeted(p: Profile, targetRole: string, targetBuildingId: string, units: seq<Bills.Unit>)
  {
    && (targetRole == "all" || p.role == targetRole)
    && (targetBuildingId == "" || p.userId in ResidentIds(units, targetBuildingId))
  }

  /** `Targeted` as the test handed to `filter`. */
  function TargetedBy(targetRole: string, targetBuildingId: string, units: seq<Bills.Unit>): Profile -> bool
  {
    (p: Profile) => Targeted(p, targetRole, targetBuildingId, units)
  }

  /** The profiles an announcement reaches: those of the target role (every
      profile for `'all'`), and, when a building is targeted, only those
      living in one of its units. The two filters in a row select the
      targeted profiles in their loaded order, each as often as it was
      loaded. */
  function Recipients(profiles: seq<Profile>, targetRole: string, targetBuildingId: string,
                      units: seq<Bills.Unit>): (r: seq<Profile>)
    ensures r == Filter(profiles, TargetedBy(targetRole, targetBuildingId, units))
    ensures |r| <= |profiles|
    ensures forall p :: p in r <==> p in profiles && Targeted(p, targetRole, targetBuildingId, units)
  {
    var targeted := TargetedBy(targetRole, targetBuildingId, units);
    var ofRole := (p: Profile) => p.role == targetRole;
    var byRole := if targetRole != "all" then Filter(profiles, ofRole) else profiles;
    if targetBuildingId != "" then
      var ids := ResidentIds(units, targetBuildingId);
      var inBuilding := (p: Profile) => p.userId in ids;
      assert Filter(byRole, inBuilding) == Filter(profiles, targeted) by {
        if targetRole != "all" {
          FilterFilter(profiles, ofRole, inBuilding, targeted);
        } else {
          FilterSame(profiles, inBuilding, targeted);
        }
      }
      Filter(byRole, inBuilding)
    else
      assert byRole == Filter(profiles, targeted) by {
        if targetRole != "all" {
          FilterSame(profiles, ofRole, targeted);
        } else {
          FilterAll(profiles, targeted);
        }
      }
      byRole
  }

  /** The notification built for one recipient. */
  function Notice(a: Announcement, p: Profile, nowMs: int): Notification
  {
    Notification("", p.userId, "announcement", a.title, Message(a.content),
                 "/announcements", "false", nowMs, "")
  }

  /** `createNotifications`: one notification per recipient, in order. */
  function FanOut(a: Announcement, profiles: seq<Profile>, units: seq<Bills.Unit>, nowMs: int): (r: seq<Notification>)
    ensures |r| == |Recipients(profiles, a.targetRole, a.targetBuildingId, units)|
    ensures forall i :: 0 <= i < |r| ==>
      && r[i].userId == Recipients(profiles, a.targetRole, a.targetBuildingId, units)[i].userId
      && r[i].kind == "announcement" && r[i].link == "/announcements" && IsUnread(r[i])
      && r[i].title == a.title && r[i].message == Message(a.content) && r[i].createdAt == nowMs
  {
    var recipients := Recipients(profiles, a.targetRole, a.targetBuildingId, units);
    Map(recipients, (p: Profile) => Notice(a, p, nowMs))
  }

  /** A user gets a notification exactly when some profile of theirs is a
      recipient. */
  lemma FanOutReachesExactly(a: Announcement, profiles: seq<Profile>, units: seq<Bills.Unit>, nowMs: int, uid: string)
    ensures (exists n :: n in FanOut(a, profiles, units, nowMs) && n.userId == uid)
        <==> exists p :: p in profiles && p.userId == uid && Targeted(p, a.targetRole, a.targetBuildingId, units)
  {
    var r := FanOut(a, profiles, units, nowMs);
    var recipients := Recipients(profiles, a.targetRole, a.targetBuildingId, units);
    if exists n :: n in r && n.userId == uid {
      var n :| n in r && n.userId == uid;
      var i :| 0 <= i < |r| && r[i] == n;
      assert recipients[i] in recipients;
    }
    if exists p :: p in profiles && p.userId == uid && Targeted(p, a.targetRole, a.targetBuildingId, units) {
      var p :| p in profiles && p.userId == uid && Targeted(p, a.targetRole, a.targetBuildingId, units);
      assert p in recipients;
      var i :| 0 <= i < |recipients| && recipients[i] == p;
      assert r[i] in r;
    }
  }

  /** Every notification of a fan-out starts unread, so each one raises its
      recipient's unread count. */
  lemma FanOutAllUnread(a: Announcement, profiles: seq<Profile>, units: seq<Bills.Unit>, nowMs: int)
    ensures UnreadCount(FanOut(a, profiles, units, nowMs)) == |FanOut(a, profiles, units, nowMs)|
  {
    var r := FanOut(a, profiles, units, nowMs);
    forall n | n in r ensures IsUnread(n) {
      var i :| 0 <= i < |r| && r[i] == n;
    }
    FilterAll(r, IsUnread);
  }

  /** Targeting everyone reaches every profile, in the loaded order. */
  lemma BroadcastReachesEveryProfile(profiles: seq<Profile>, units: seq<Bills.Unit>)
    ensures Recipients(profiles, "all", "", units) == profiles
  {
  }

  // ---------------------------------------------------------------------
  // Saving, publishing, archiving

  /** What `handleSubmit` leads to. */
  datatype SubmitOutcome =
    | Rejected                                                   // a blank title or content
    | Updated(record: Announcement)                              // the edited announcement's update
    | Created(record: Announcement, notices: seq<Notification>)  // the new announcement and its fan-out

  /** `handleSubmit(status)` with the form `form`; `editingId` is "" when no
      announcement is being edited. */
  function Submit(form: AnnouncementForm, status: string, user: Option<User>, editingId: string,
                  announcements: seq<Announcement>, profiles: seq<Profile>, units: seq<Bills.Unit>,
                  now: string, nowMs: int): (r: SubmitOutcome)
    ensures r.Rejected? <==> IsBlank(form.title) || IsBlank(form.content)
    ensures r.Updated? <==> !r.Rejected? && editingId != ""
    ensures !r.Rejected? ==>
      && r.record.title == form.title && r.record.content == form.content
      && r.record.priority == form.priority && r.record.targetRole == form.targetRole
      && r.record.targetBuildingId == form.targetBuildingId
      && r.record.status == status && r.record.createdBy == Uid(user)
      && (r.record.publishedAt.Some? <==> status == "published")
      && (r.record.publishedAt.Some? ==> r.record.publishedAt.value == now)
    ensures r.Updated? ==> r.record.id == editingId
    ensures r.Updated? && Lookup(announcements, editingId).Some? && Lookup(announcements, editingId).value.createdAt != "" ==>
      r.record.createdAt == Lookup(announcements, editingId).value.createdAt
    ensures r.Updated? && !(Lookup(announcements, editingId).Some? && Lookup(announcements, editingId).value.createdAt != "") ==>
      r.record.createdAt == now
    ensures r.Updated? ==>
      r.record.owner == (if Lookup(announcements, editingId).Some? && Lookup(announcements, editingId).value.owner != ""
                         then Lookup(announcements, editingId).value.owner else Uid(user))
    ensures r.Created? ==> r.record.createdAt == now && r.record.owner == Uid(user)
    ensures r.Created? ==>
      r.notices == if status == "published" then FanOut(r.record, profiles, units, nowMs) else []
  {
    if IsBlank(form.title) || IsBlank(form.content) then Rejected
    else
      var existing := if editingId != "" then Lookup(announcements, editingId) else None;
      var createdAt := if existing.Some? && existing.value.createdAt != "" then existing.value.createdAt else now;
      var publishedAt := if status == "published" then Some(now) else None;
      if editingId != "" then
        var owner := if existing.Some? && existing.value.owner != "" then existing.value.owner else Uid(user);
        Updated(Announcement(editingId, owner, form.title, form.content, form.priority, form.targetRole,
                             form.targetBuildingId, status, Uid(user), createdAt, publishedAt))
      else
        var record := Announcement("", Uid(user), form.title, form.content, form.priority, form.targetRole,
                                   form.targetBuildingId, status, Uid(user), createdAt, publishedAt);
        Created(record, if status == "published" then FanOut(record, profiles, units, nowMs) else [])
  }

  /** The stored announcement after an update: every field written replaces
      the stored one, and an absent `published_at` leaves the stored value. */
  function StoreUpdate(stored: Announcement, w: Announcement): (r: Announcement)
    ensures r.id == stored.id
    ensures r.publishedAt == if w.publishedAt.Some? then w.publishedAt else stored.publishedAt
    ensures r.(id := w.id, publishedAt := w.publishedAt) == w
  {
    w.(id := stored.id, publishedAt := if w.publishedAt.Some? then w.publishedAt else stored.publishedAt)
  }

  /** Editing announces nothing: notifications go out only when a new
      announcement is saved as published. */
  lemma OnlyNewPublishedFansOut(form: AnnouncementForm, status: string, user: Option<User>, editingId: string,
                                announcements: seq<Announcement>, profiles: seq<Profile>,
                                units: seq<Bills.Unit>, now: string, nowMs: int)
    requires Submit(form, status, user, editingId, announcements, profiles, units, now, nowMs).Created?
    requires Submit(form, status, user, editingId, announcements, profiles, units, now, nowMs).notices != []
    ensures editingId == "" && status == "published"
  {
  }

  /** Saving a published announcement back as a draft leaves the store with a
      draft that still carries its old `published_at`, because the draft's
      update sends no `published_at`. */
  lemma RedraftKeepsPublishedAt(stored: Announcement, form: AnnouncementForm, user: Option<User>,
                                announcements: seq<Announcement>, profiles: seq<Profile>,
                                units: seq<Bills.Unit>, now: string, nowMs: int)
    requires stored in announcements && stored.id != "" && stored.publishedAt.Some?
    requires !IsBlank(form.title) && !IsBlank(form.content)
    ensures var r := Submit(form, "draft", user, stored.id, announcements, profiles, units, now, nowMs);
      r.Updated? && StoreUpdate(stored, r.record).status == "draft"
      && StoreUpdate(stored, r.record).publishedAt == stored.publishedAt
  {
  }

  /** `handlePublish(id)`: the stored announcement with status `published`
      and a fresh `published_at`, and the notifications it fans out to;
      nothing for an unknown id. */
  function Publish(announcements: seq<Announcement>, id: string, user: Option<User>,
                   profiles: seq<Profile>, units: seq<Bills.Unit>, now: string, nowMs: int)
    : (r: Option<(Announcement, seq<Notification>)>)
    ensures r.None? <==> Lookup(announcements, id).None?
    ensures r.Some? ==>
      var a := Lookup(announcements, id).value;
      var (record, notices) := r.value;
      && record.status == "published" && record.publishedAt == Some(now)
      && record.(status := a.status, publishedAt := a.publishedAt, owner := a.owner) == a
      && record.owner == (if a.owner != "" then a.owner else Uid(user))
      && notices == FanOut(record, profiles, units, nowMs)
  {
    match Lookup(announcements, id)
    case None => None
    case Some(a) =>
      var owner := if a.owner != "" then a.owner else Uid(user);
      var record := a.(owner := owner, status := "published", publishedAt := Some(now));
      Some((record, FanOut(record, profiles, units, nowMs)))
  }

  /** `handleArchive(id)`: the stored announcement with status `archived`
      and nothing else changed; nothing for an unknown id. */
  function Archive(announcements: seq<Announcement>, id: string, user: Option<User>): (r: Option<Announcement>)
    ensures r.None? <==> Lookup(announcements, id).None?
    ensures r.Some? ==>
      var a := Lookup(announcements, id).value;
      && r.value.status == "archived"
      && r.value.(status := a.status, owner := a.owner) == a
      && r.value.owner == (if a.owner != "" then a.owner else Uid(user))
  {
    match Lookup(announcements, id)
    case None => None
    case Some(a) =>
      var owner := if a.owner != "" then a.owner else Uid(user);
      Some(a.(owner := owner, status := "archived"))
  }

  // ---------------------------------------------------------------------
  // The list

  /** `filteredAnnouncements`: status and priority filters, `'all'` letting
      everything through. */
  function Filtered(announcements: seq<Announcement>, filterStatus: string, filterPriority: string)
    : (r: seq<Announcement>)
    ensures |r| <= |announcements|
    ensures forall a :: a in r <==>
      && a in announcements
      && (filterStatus == "all" || a.status == filterStatus)
      && (filterPriority == "all" || a.priority == filterPriority)
  {
    Filter(announcements, (a: Announcement) =>
      && (filterStatus == "all" || a.status == filterStatus)
      && (filterPriority == "all" || a.priority == filterPriority))
  }

  /** With both filters at `'all'` the list is shown whole. */
  lemma FilteredAllIsEverything(announcements: seq<Announcement>)
    ensures Filtered(announcements, "all", "all") == announcements
  {
    FilterAll(announcements, (a: Announcement) =>
      && ("all" == "all" || a.status == "all")
      && ("all" == "all" || a.priority == "all"));
  }

  datatype AnnouncementStats = AnnouncementStats(total: nat, published: nat, drafts: nat, urgent: nat)

  predicate IsPublished(a: Announcement) { a.status == "published" }

  predicate IsDraft(a: Announcement) { a.status == "draft" }

  predicate IsUrgentPublished(a: Announcement) { a.priority == "urgent" && a.status == "published" }

  /** `stats`, over every loaded announcement. */
  function Stats(announcements: seq<Announcement>): (s: AnnouncementStats)
    ensures s.total == |announcements|
    ensures s.published <= s.total && s.drafts <= s.total
  {
    AnnouncementStats(|announcements|, Count(announcements, IsPublished),
                      Count(announcements, IsDraft), Count(announcements, IsUrgentPublished))
  }

  /** No announcement is both published and a draft, and urgent ones are
      counted among the published. */
  lemma StatsBounds(announcements: seq<Announcement>)
    ensures Stats(announcements).published + Stats(announcements).drafts <= Stats(announcements).total
    ensures Stats(announcements).urgent <= Stats(announcements).published
  {
    CountDisjoint(announcements, IsPublished, IsDraft);
    CountMono(announcements, IsUrgentPublished, IsPublished);
  }
}
