/**
 * The survey detail panel's two flag toggles (`isViewed` and
 * `isActiveQueue`). A click flips the local flag at once, rewrites every
 * cached survey page optimistically, remembers the pages as they were, and
 * sends the request; if the request fails the remembered pages are written
 * back and the local flag returns to its value before the click.
 */
module SurveyResponseDisplay {
  import opened Js
  import opened QueryCache

  datatype Flag = Viewed | ActiveQueue

  /** The record property a toggle rewrites. */
  function FlagKey(flag: Flag): string {
    match flag
    case Viewed => "isViewed"
    case ActiveQueue => "isActiveQueue"
  }

  /** Both toggles match every query whose key starts with `'surveys'`. */
  const SurveysKey: QueryKey := [Str("surveys")]

  /** The record mapper: `survey._id === id ? { ...survey, [key]: value } : survey`. */
  function MarkRecord(survey: Record, id: JsValue, key: string, value: bool): (r: Record)
    ensures Get(survey, "_id") != id ==> r == survey
    ensures Get(survey, "_id") == id ==>
              r.Keys == survey.Keys + {key} && r[key] == Bool(value) &&
              forall k :: k in survey && k != key ==> r[k] == survey[k]
  {
    if Get(survey, "_id") == id then survey[key := Bool(value)] else survey
  }

  /** The page has a truthy `data.surveys` array (`old?.data?.surveys`). */
  predicate HasSurveys(page: Option<QueryData>) {
    page.Some? && page.value.data.Some? && page.value.data.value.surveys.Some?
  }

  /** The surveys of a page that has them. */
  function Surveys(page: Option<QueryData>): seq<Record>
    requires HasSurveys(page)
  {
    page.value.data.value.surveys.value
  }

  /**
   * The cache updater of both mutations: a page without surveys is returned
   * as it was; otherwise the record whose `_id` is `id` gets `key := value`
   * and every other part of the page is kept.
   */
  function SetFlag(page: Option<QueryData>, id: JsValue, key: string, value: bool): (r: Option<QueryData>)
    ensures !HasSurveys(page) ==> r == page
    ensures HasSurveys(page) ==>
              HasSurveys(r) &&
              r.value.rest == page.value.rest &&
              r.value.data.value.totalPages == page.value.data.value.totalPages &&
              r.value.data.value.rest == page.value.data.value.rest &&
              |Surveys(r)| == |Surveys(page)| &&
              forall i :: 0 <= i < |Surveys(page)| ==> Surveys(r)[i] == MarkRecord(Surveys(page)[i], id, key, value)
  {
    if !HasSurveys(page) then page
    else
      var surveys := Surveys(page);
      var marked := seq(|surveys|, i requires 0 <= i < |surveys| => MarkRecord(surveys[i], id, key, value));
      Some(page.value.(data := Some(page.value.data.value.(surveys := Some(marked)))))
  }

  /** Applying the same updater twice is the same as applying it once. */
  lemma SetFlagIdempotent(page: Option<QueryData>, id: JsValue, key: string, value: bool)
    requires key != "_id"
    ensures SetFlag(SetFlag(page, id, key, value), id, key, value) == SetFlag(page, id, key, value)
  {
    if HasSurveys(page) {
      var once := SetFlag(page, id, key, value);
      var twice := SetFlag(once, id, key, value);
      assert Surveys(twice) == Surveys(once) by {
        forall i | 0 <= i < |Surveys(once)| ensures Surveys(twice)[i] == Surveys(once)[i] {
          var s := Surveys(page)[i];
          if Get(s, "_id") == id {
            assert Get(Surveys(once)[i], "_id") == id;
            assert Surveys(once)[i] == s[key := Bool(value)];
          }
        }
      }
    }
  }

  /** The updater a toggle installs, given the flag value before the click. */
  function ToggleUpdater(flag: Flag, id: JsValue, current: JsValue): Option<QueryData> -> Option<QueryData> {
    page => SetFlag(page, id, FlagKey(flag), !Truthy(current))
  }

  /** The cache after a toggle's optimistic update. */
  function Optimistic(entries: Entries, flag: Flag, id: JsValue, current: JsValue): (r: Entries)
    ensures r.Keys == entries.Keys
    ensures forall k :: k in entries && !Matches(k, SurveysKey) ==> r[k] == entries[k]
    ensures forall k :: k in entries && Matches(k, SurveysKey) ==>
              r[k] == SetFlag(entries[k], id, FlagKey(flag), !Truthy(current))
  {
    ApplyToMatching(entries, SurveysKey, ToggleUpdater(flag, id, current))
  }

  /**
   * A failed toggle undoes itself: writing back the snapshot taken before the
   * optimistic update gives the cache as it was before the click.
   */
  lemma FailedToggleRestoresCache(entries: Entries, flag: Flag, id: JsValue, current: JsValue)
    ensures Restore(Optimistic(entries, flag, id, current), Snapshot(entries, SurveysKey)) == entries
  {
    RollbackRestores(entries, SurveysKey, ToggleUpdater(flag, id, current));
  }

  /** The server call a toggle issues. */
  datatype ServerCall =
    | ToggleIsViewed(id: JsValue, currentIsViewed: JsValue)
    | UpdateIsActiveQueue(id: JsValue, isActiveQueue: bool)

  /** `mutationFn`: the viewed toggle sends the old value, the queue toggle the new one. */
  function Call(flag: Flag, id: JsValue, current: JsValue): (r: ServerCall)
    ensures r.id == id
    ensures flag == Viewed ==> r.ToggleIsViewed? && r.currentIsViewed == current
    ensures flag == ActiveQueue ==> r.UpdateIsActiveQueue? && (r.isActiveQueue <==> !Truthy(current))
  {
    match flag
    case Viewed => ToggleIsViewed(id, current)
    case ActiveQueue => UpdateIsActiveQueue(id, !Truthy(current))
  }

  /** A mutation is idle, or pending with its variables and its `onMutate` context. */
  datatype MutationState =
    | Idle
    | Pending(id: JsValue, current: JsValue, previous: Entries)

  /** `selectedSurvey?.[key]`. */
  function Selected(selected: Option<Record>, key: string): JsValue {
    if selected.None? then Undefined else Get(selected.value, key)
  }

  /** The effect that re-syncs the local flags runs when one of its dependencies changes. */
  predicate DepsChanged(before: Option<Record>, after: Option<Record>) {
    Selected(before, "isViewed") != Selected(after, "isViewed") ||
    Selected(before, "isActiveQueue") != Selected(after, "isActiveQueue") ||
    Selected(before, "_id") != Selected(after, "_id")
  }

  class SurveyResponsePanel {
    const client: QueryClient
    var selected: Option<Record>
    var localIsViewed: JsValue
    var localIsActiveQueue: JsValue
    var viewedMutation: MutationState
    var activeQueueMutation: MutationState
    /** The toggle requests sent to the server, in order. */
    var requests: seq<ServerCall>

    function Local(flag: Flag): JsValue
      reads this
    {
      match flag
      case Viewed => localIsViewed
      case ActiveQueue => localIsActiveQueue
    }

    function Mutation(flag: Flag): MutationState
      reads this
    {
      match flag
      case Viewed => viewedMutation
      case ActiveQueue => activeQueueMutation
    }

    /**
     * Mounting: the local flags start as `selectedSurvey?.flag || false`, and
     * the re-sync effect then runs once, copying the record's flags when a
     * survey is selected.
     */
    constructor (client: QueryClient, selected: Option<Record>)
      ensures this.client == client && this.selected == selected
      ensures selected.Some? ==> localIsViewed == Get(selected.value, "isViewed") &&
                                 localIsActiveQueue == Get(selected.value, "isActiveQueue")
      ensures selected.None? ==> localIsViewed == Bool(false) && localIsActiveQueue == Bool(false)
      ensures viewedMutation == Idle && activeQueueMutation == Idle && requests == []
    {
      this.client := client;
      this.selected := selected;
      localIsViewed := Or(Selected(selected, "isViewed"), Bool(false));
      localIsActiveQueue := Or(Selected(selected, "isActiveQueue"), Bool(false));
      viewedMutation, activeQueueMutation := Idle, Idle;
      requests := [];
      if selected.Some? {
        localIsViewed := Get(selected.value, "isViewed");
        localIsActiveQueue := Get(selected.value, "isActiveQueue");
      }
    }

    /** A new `selectedSurvey` prop; the re-sync effect runs if a dependency changed. */
    method Select(next: Option<Record>)
      modifies this
      ensures selected == next
      ensures DepsChanged(old(selected), next) && next.Some? ==>
                localIsViewed == Get(next.value, "isViewed") &&
                localIsActiveQueue == Get(next.value, "isActiveQueue")
      ensures !(DepsChanged(old(selected), next) && next.Some?) ==>
                localIsViewed == old(localIsViewed) && localIsActiveQueue == old(localIsActiveQueue)
      ensures viewedMutation == old(viewedMutation) && activeQueueMutation == old(activeQueueMutation)
      ensures requests == old(requests)
    {
      var changed := DepsChanged(selected, next);
      selected := next;
      if changed && next.Some? {
        localIsViewed := Get(next.value, "isViewed");
        localIsActiveQueue := Get(next.value, "isActiveQueue");
      }
    }

    /**
     * `handleToggleViewed` / `handleToggleActiveQueue` followed by `onMutate`.
     * Without a selected `_id`, or while this flag's mutation is pending,
     * nothing happens. Otherwise the local flag is negated, the cache gets the
     * optimistic update (whose written value is the new local flag), the
     * matching pages as they were are kept as the mutation's context, and the
     * request `Call(flag, id, current)` is sent: the viewed toggle sends the
     * value before the click, the queue toggle the new one.
     */
    method HandleToggle(flag: Flag)
      modifies this, client
      ensures selected == old(selected)
      ensures !Truthy(Selected(old(selected), "_id")) || old(Mutation(flag)).Pending? ==>
                Local(Viewed) == old(Local(Viewed)) && Local(ActiveQueue) == old(Local(ActiveQueue)) &&
                Mutation(Viewed) == old(Mutation(Viewed)) && Mutation(ActiveQueue) == old(Mutation(ActiveQueue)) &&
                client.entries == old(client.entries) && requests == old(requests)
      ensures Truthy(Selected(old(selected), "_id")) && old(Mutation(flag)).Idle? ==>
                var id := Selected(old(selected), "_id");
                var current := old(Local(flag));
                && Local(flag) == Bool(!Truthy(current))
                && Mutation(flag) == Pending(id, current, Snapshot(old(client.entries), SurveysKey))
                && client.entries == Optimistic(old(client.entries), flag, id, current)
                && requests == old(requests) + [Call(flag, id, current)]
      ensures flag == Viewed ==> localIsActiveQueue == old(localIsActiveQueue) && activeQueueMutation == old(activeQueueMutation)
      ensures flag == ActiveQueue ==> localIsViewed == old(localIsViewed) && viewedMutation == old(viewedMutation)
    {
      var id := Selected(selected, "_id");
      if !Truthy(id) || Mutation(flag).Pending? {
        return;
      }
      var current := Local(flag);
      var previous := client.QueriesData(SurveysKey);
      if flag == Viewed {
        localIsViewed := Bool(!Truthy(current));
        viewedMutation := Pending(id, current, previous);
      } else {
        localIsActiveQueue := Bool(!Truthy(current));
        activeQueueMutation := Pending(id, current, previous);
      }
      client.SetQueriesData(SurveysKey, ToggleUpdater(flag, id, current));
      requests := requests + [Call(flag, id, current)];
    }

    /**
     * The request's outcome arrives (`onSuccess` or `onError`, then
     * `onSettled`). On failure the local flag goes back to the value sent and
     * every snapshotted page is written back. An idle mutation has nothing to
     * settle.
     */
    method Settle(flag: Flag, succeeded: bool)
      modifies this, client
      ensures Mutation(flag) == Idle
      ensures selected == old(selected) && requests == old(requests)
      ensures old(Mutation(flag)).Idle? || succeeded ==>
                Local(flag) == old(Local(flag)) && client.entries == old(client.entries)
      ensures old(Mutation(flag)).Pending? && !succeeded ==>
                Local(flag) == old(Mutation(flag)).current &&
                client.entries == Restore(old(client.entries), old(Mutation(flag)).previous)
      ensures flag == Viewed ==> localIsActiveQueue == old(localIsActiveQueue) && activeQueueMutation == old(activeQueueMutation)
      ensures flag == ActiveQueue ==> localIsViewed == old(localIsViewed) && viewedMutation == old(viewedMutation)
    {
      var mutation := Mutation(flag);
      if flag == Viewed {
        viewedMutation := Idle;
      } else {
        activeQueueMutation := Idle;
      }
      if mutation.Idle? || succeeded {
        return;
      }
      if flag == Viewed {
        localIsViewed := mutation.current;
      } else {
        localIsActiveQueue := mutation.current;
      }
      var previous := mutation.previous;
      ghost var start := client.entries;
      var left := previous.Keys;
      while left != {}
        modifies client
        invariant left <= previous.Keys
        invariant client.entries == Restore(start, Restrict(previous, previous.Keys - left))
        decreases left
      {
        var key :| key in left;
        RestoreStep(start, previous, previous.Keys - left, key);
        client.SetQueryData(key, previous[key]);
        assert previous.Keys - left + {key} == previous.Keys - (left - {key});
        left := left - {key};
      }
      assert Restrict(previous, previous.Keys) == previous;
    }
  }

  /**
   * A click whose request fails leaves everything as before the click: the
   * cache and the local flag are restored, and the mutation is idle again.
   */
  method ToggleThenFail(entries: Entries, survey: Record, flag: Flag)
    returns (restored: Entries, flagAfter: JsValue, sent: seq<ServerCall>)
    requires Truthy(Get(survey, "_id"))
    ensures restored == entries
    ensures flagAfter == Get(survey, FlagKey(flag))
    ensures sent == [Call(flag, Get(survey, "_id"), Get(survey, FlagKey(flag)))]
  {
    var client := new QueryClient(entries);
    var panel := new SurveyResponsePanel(client, Some(survey));
    assert panel.Local(flag) == Get(survey, FlagKey(flag));
    panel.HandleToggle(flag);
    panel.Settle(flag, false);
    FailedToggleRestoresCache(entries, flag, Get(survey, "_id"), Get(survey, FlagKey(flag)));
    restored, flagAfter, sent := client.entries, panel.Local(flag), panel.requests;
  }

  /**
   * A second click while the first request is still pending is ignored: one
   * request is sent and the local flag is flipped once, to the value the
   * optimistic update wrote into the cache.
   */
  method DoubleClickSendsOnce(entries: Entries, survey: Record, flag: Flag)
    returns (cached: Entries, flagAfter: JsValue, sent: seq<ServerCall>)
    requires Truthy(Get(survey, "_id"))
    ensures flagAfter == Bool(!Truthy(Get(survey, FlagKey(flag))))
    ensures cached == Optimistic(entries, flag, Get(survey, "_id"), Get(survey, FlagKey(flag)))
    ensures sent == [Call(flag, Get(survey, "_id"), Get(survey, FlagKey(flag)))]
  {
    var client := new QueryClient(entries);
    var panel := new SurveyResponsePanel(client, Some(survey));
    assert panel.Local(flag) == Get(survey, FlagKey(flag));
    panel.HandleToggle(flag);
    panel.HandleToggle(flag);
    cached, flagAfter, sent := client.entries, panel.Local(flag), panel.requests;
  }
}
