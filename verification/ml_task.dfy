/** The part of the ML task handle that is local logic over a value already
    fetched from the server: listing trained model ids, optionally only those
    of one training session. */
module MLTask {
  import opened Wrappers
  import opened JsonValues
  import opened Lists

  /** The session an entry of `fullModelIds` belongs to:
      `entry.get("fullModelId", {}).get("sessionId", "")`. A missing
      `fullModelId` or `sessionId` reads as the empty string; an entry or a
      `fullModelId` that is not a mapping raises. */
  function SessionOf(entry: Json): (r: Result<Json, Error>)
    ensures r.Success? <==>
      entry.JObject? && ("fullModelId" in entry.fields ==> entry.fields["fullModelId"].JObject?)
    ensures r.Success? && "fullModelId" !in entry.fields ==> r.value == JString("")
    ensures r.Success? && "fullModelId" in entry.fields ==>
      var full := entry.fields["fullModelId"].fields;
      r.value == if "sessionId" in full then full["sessionId"] else JString("")
  {
    var full :- GetOr(entry, "fullModelId", JObject(map[]));
    GetOr(full, "sessionId", JString(""))
  }

  function InSession(sessionId: Json, entry: Json): Result<bool, Error>
  {
    var session :- SessionOf(entry);
    Success(session == sessionId)
  }

  /** `entry["id"]`. */
  function IdOf(entry: Json): Result<Json, Error>
  {
    Index(entry, "id")
  }

  /** The entries of the task status's `fullModelIds` value, as the
      comprehensions over it see them: the items of a list, and none for an
      empty mapping or string; any other value raises in those
      comprehensions. */
  function ListedModels(status: Json): (r: Result<seq<Json>, Error>)
    ensures r.Success? <==>
      && Index(status, "fullModelIds").Success?
      && var listed := Index(status, "fullModelIds").value;
         listed.JArray? || listed == JObject(map[]) || listed == JString("")
    ensures r.Success? ==>
      r.value == if Index(status, "fullModelIds").value.JArray? then Index(status, "fullModelIds").value.items else []
  {
    var listed :- Index(status, "fullModelIds");
    Elements(listed, "fullModelIds")
  }

  /** The entries kept by the optional session filter. */
  function KeptEntries(entries: seq<Json>, sessionId: Option<Json>): Result<seq<Json>, Error>
  {
    if sessionId.Some? then FilterOrFail(entries, e => InSession(sessionId.value, e)) else Success(entries)
  }

  /** `kept` is what the session filter keeps of `entries`: the entries of
      the session, each as often as it is listed, in their listed order. */
  ghost predicate IsSessionFilter(kept: seq<Json>, entries: seq<Json>, sessionId: Json)
    requires forall e :: e in entries ==> SessionOf(e).Success?
  {
    && IsSubseq(kept, entries)
    && (forall e :: e in kept ==> e in entries)
    && forall e :: e in entries ==>
         multiset(kept)[e] == if SessionOf(e).value == sessionId then multiset(entries)[e] else 0
  }

  /** The ids of the trained models listed in a status, restricted to one
      session when `sessionId` is given. Without a session every listed
      model contributes its id, in order; with a session the result holds
      exactly the ids of the entries of that session, in order. */
  function TrainedModelIds(status: Json, sessionId: Option<Json>): (r: Result<seq<Json>, Error>)
    ensures r.Success? ==> ListedModels(status).Success?
    ensures sessionId.None? ==>
      (r.Success? <==>
         && ListedModels(status).Success?
         && forall i :: 0 <= i < |ListedModels(status).value| ==> IdOf(ListedModels(status).value[i]).Success?)
    ensures sessionId.None? && r.Success? ==>
      var entries := ListedModels(status).value;
      && |r.value| == |entries|
      && forall i :: 0 <= i < |entries| ==> r.value[i] == entries[i].fields["id"]
    ensures sessionId.Some? ==>
      (r.Success? <==>
         && ListedModels(status).Success?
         && (forall e :: e in ListedModels(status).value ==> SessionOf(e).Success?)
         && (forall e :: e in ListedModels(status).value && SessionOf(e).value == sessionId.value ==>
               IdOf(e).Success?))
    ensures sessionId.Some? && r.Success? ==>
      var entries := ListedModels(status).value;
      && (forall e :: e in entries ==> SessionOf(e).Success?)
      && (forall e :: e in entries && SessionOf(e).value == sessionId.value ==>
            IdOf(e).Success? && IdOf(e).value in r.value)
      && (forall x :: x in r.value ==>
            exists e :: e in entries && SessionOf(e).value == sessionId.value && IdOf(e) == Success(x))
      && exists kept ::
           && IsSessionFilter(kept, entries, sessionId.value)
           && |r.value| == |kept|
           && forall i :: 0 <= i < |kept| ==> IdOf(kept[i]) == Success(r.value[i])
  {
    var entries :- ListedModels(status);
    var kept :- KeptEntries(entries, sessionId);
    var ids := MapOrFail(kept, IdOf);
    if sessionId.Some? then
      SessionFilterSucceeds(entries, kept, sessionId.value);
      if ids.Success? then
        SessionFilterMembers(entries, kept, sessionId.value, ids.value);
        ids
      else
        ids
    else
      ids
  }

  /** When the session filter succeeds, it keeps exactly the session's
      entries, and mapping them to ids succeeds iff each of them has one. */
  lemma SessionFilterSucceeds(entries: seq<Json>, kept: seq<Json>, sessionId: Json)
    requires FilterOrFail(entries, e => InSession(sessionId, e)) == Success(kept)
    ensures forall e :: e in entries ==> SessionOf(e).Success?
    ensures IsSessionFilter(kept, entries, sessionId)
    ensures MapOrFail(kept, IdOf).Success? <==>
      forall e :: e in entries && SessionOf(e).value == sessionId ==> IdOf(e).Success?
  {
    var test := e => InSession(sessionId, e);
    forall e | e in entries ensures SessionOf(e).Success? {
      assert test(e).Success?;
    }
    if forall e :: e in entries && SessionOf(e).value == sessionId ==> IdOf(e).Success? {
      forall i | 0 <= i < |kept| ensures IdOf(kept[i]).Success? {
        assert kept[i] in kept;
        assert Passes(test, kept[i]);
      }
    } else {
      var e :| e in entries && SessionOf(e).value == sessionId && !IdOf(e).Success?;
      assert Passes(test, e);
      assert multiset(kept)[e] == multiset(entries)[e] > 0;
      var i :| 0 <= i < |kept| && kept[i] == e;
      assert !IdOf(kept[i]).Success?;
    }
  }

  lemma SessionFilterMembers(entries: seq<Json>, kept: seq<Json>, sessionId: Json, ids: seq<Json>)
    requires FilterOrFail(entries, e => InSession(sessionId, e)) == Success(kept)
    requires MapOrFail(kept, IdOf) == Success(ids)
    ensures forall e :: e in entries ==> SessionOf(e).Success?
    ensures forall e :: e in entries && SessionOf(e).value == sessionId ==> IdOf(e).Success? && IdOf(e).value in ids
    ensures forall x :: x in ids ==> exists e :: e in entries && SessionOf(e).value == sessionId && IdOf(e) == Success(x)
  {
    var test := e => InSession(sessionId, e);
    forall e | e in entries ensures SessionOf(e).Success? {
      assert test(e).Success?;
    }
    forall e | e in entries && SessionOf(e).value == sessionId
      ensures IdOf(e).Success? && IdOf(e).value in ids
    {
      assert Passes(test, e);
      assert multiset(kept)[e] == multiset(entries)[e] > 0;
      var i :| 0 <= i < |kept| && kept[i] == e;
      assert ids[i] == IdOf(kept[i]).value;
    }
    forall x | x in ids
      ensures exists e :: e in entries && SessionOf(e).value == sessionId && IdOf(e) == Success(x)
    {
      var i :| 0 <= i < |ids| && ids[i] == x;
      assert kept[i] in kept;
      assert Passes(test, kept[i]);
      assert IdOf(kept[i]) == Success(x);
    }
  }

  /** Filtering by session never reorders or invents ids: when both calls
      succeed, the ids of one session form a sub-list of all ids. */
  lemma SessionIdsAreSublist(status: Json, sessionId: Json)
    requires TrainedModelIds(status, Some(sessionId)).Success?
    requires TrainedModelIds(status, None).Success?
    ensures IsSubseq(TrainedModelIds(status, Some(sessionId)).value, TrainedModelIds(status, None).value)
  {
    var entries := ListedModels(status).value;
    var kept := KeptEntries(entries, Some(sessionId)).value;
    SubseqMap(kept, entries, IdOf);
  }

  /** Entries without a `fullModelId` belong to the session named by the
      empty string. */
  lemma EntriesWithoutFullIdAreInEmptySession(entry: Json)
    requires entry.JObject? && "fullModelId" !in entry.fields
    ensures InSession(JString(""), entry) == Success(true)
  {
  }

  /** A `fullModelIds` that is an empty mapping or an empty string lists no
      model, with or without a session. */
  lemma EmptyListingHasNoModels(status: Json, sessionId: Option<Json>)
    requires Index(status, "fullModelIds") == Success(JObject(map[]))
          || Index(status, "fullModelIds") == Success(JString(""))
    ensures TrainedModelIds(status, sessionId) == Success([])
  {
  }
}
