/**
 * The candidate store: an authoritative list with its fetch state, pending
 * optimistic overlays folded over it for readers, and the fetch, status
 * update and create operations, each split into a begin step (before the
 * service call) and a settle step (when the call resolves or rejects).
 */
module UseCandidates {
  import opened Wrappers
  import opened CandidateTypes
  import opened ApiErrors

  const CONNECTION_MESSAGE := "Unable to connect to the server. Please check your internet connection."
  const RATE_LIMIT_MESSAGE := "Too many requests. Please wait a moment and try again."
  const SERVER_ERROR_MESSAGE := "Server error occurred. Please try again later."
  const UNEXPECTED_MESSAGE := "An unexpected error occurred. Please try again."
  const NOT_FOUND_MESSAGE := "Candidate not found"

  /** The page and page size of the one list request a fetch issues. */
  const FETCH_PAGE := 1
  const FETCH_LIMIT := 100

  /**
   * The user-facing text for a failure, by the first rule that applies:
   * status 0, then 429, then 500 and above; any other ApiError shows its own
   * message, and anything else a generic text.
   */
  function GetErrorMessage(err: Thrown): (m: string)
    ensures IsApiError(err) && err.error.statusCode == 0 ==> m == CONNECTION_MESSAGE
    ensures IsApiError(err) && err.error.statusCode == 429 ==> m == RATE_LIMIT_MESSAGE
    ensures IsApiError(err) && err.error.statusCode >= 500 ==> m == SERVER_ERROR_MESSAGE
    ensures IsApiError(err) && err.error.statusCode != 0 && err.error.statusCode != 429 && err.error.statusCode < 500
            ==> m == err.error.message
    ensures !IsApiError(err) ==> m == UNEXPECTED_MESSAGE
  {
    if IsApiError(err) then
      if err.error.statusCode == 0 then CONNECTION_MESSAGE
      else if err.error.statusCode == 429 then RATE_LIMIT_MESSAGE
      else if err.error.statusCode >= 500 then SERVER_ERROR_MESSAGE
      else err.error.message
    else UNEXPECTED_MESSAGE
  }

  /** A failed request that never got a response is always shown as a connectivity problem. */
  lemma NoResponseIsConnectivity(e: TransportError)
    requires e.response.None?
    ensures GetErrorMessage(Intercept<seq<Candidate>>(Failed(e)).error) == CONNECTION_MESSAGE
  {
  }

  /** A failure that passed the interceptor never classifies to the empty string. */
  lemma InterceptedMessageNonEmpty(e: TransportError)
    ensures GetErrorMessage(Intercept<seq<Candidate>>(Failed(e)).error) != ""
  {
  }

  /** A pending optimistic change. */
  datatype Action = UpdateStatus(id: int, status: Status) | Add(candidate: Candidate)

  /**
   * The update_status overlay: every record with `id` gets the new status and
   * the timestamp `now`; every other record, the length and the order stay.
   */
  function ApplyStatus(state: seq<Candidate>, id: int, status: Status, now: string): (r: seq<Candidate>)
    ensures |r| == |state|
    ensures forall i :: 0 <= i < |state| && state[i].id == id ==> r[i] == state[i].(status := status, updatedAt := now)
    ensures forall i :: 0 <= i < |state| && state[i].id != id ==> r[i] == state[i]
  {
    if state == [] then []
    else
      var head := if state[0].id == id then state[0].(status := status, updatedAt := now) else state[0];
      [head] + ApplyStatus(state[1..], id, status, now)
  }

  /** The overlay reducer; `now` is the clock reading when the view is computed. */
  function Reduce(state: seq<Candidate>, action: Action, now: string): (r: seq<Candidate>)
    ensures action.UpdateStatus? ==> r == ApplyStatus(state, action.id, action.status, now)
    ensures action.Add? ==> |r| == |state| + 1 && r[0] == action.candidate && r[1..] == state
  {
    match action
    case UpdateStatus(id, status) => ApplyStatus(state, id, status, now)
    case Add(c) => [c] + state
  }

  /** The authoritative list with the pending actions applied in the order they were issued. */
  function ApplyOverlays(state: seq<Candidate>, actions: seq<Action>, now: string): (r: seq<Candidate>)
    ensures forall id :: HasId(state, id) ==> HasId(r, id)
    decreases |actions|
  {
    if actions == [] then state
    else
      var before := ApplyOverlays(state, actions[..|actions| - 1], now);
      var r := Reduce(before, actions[|actions| - 1], now);
      assert forall id :: HasId(before, id) ==> HasId(r, id) by {
        forall id | HasId(before, id) ensures HasId(r, id) {
          var i :| 0 <= i < |before| && before[i].id == id;
          if actions[|actions| - 1].Add? {
            assert r[i + 1] == before[i];
          } else {
            assert r[i].id == id;
          }
        }
      }
      r
  }

  /** Removes the last occurrence of `a`: the overlay a settling operation had pushed. */
  function RemoveLast(xs: seq<Action>, a: Action): (r: seq<Action>)
    ensures a !in xs ==> r == xs
    ensures a in xs ==> |r| == |xs| - 1 && multiset(r) == multiset(xs) - multiset{a}
    ensures a in xs ==> exists k :: 0 <= k < |xs| && xs[k] == a && a !in xs[k + 1..] && r == xs[..k] + xs[k + 1..]
  {
    match LastIndexOf(xs, a)
    case None => xs
    case Some(k) =>
      assert xs == xs[..k] + [a] + xs[k + 1..];
      xs[..k] + xs[k + 1..]
  }

  /** The index of the last occurrence of `a`, if any. */
  function LastIndexOf(xs: seq<Action>, a: Action): (r: Option<nat>)
    ensures r.None? <==> a !in xs
    ensures r.Some? ==> r.value < |xs| && xs[r.value] == a && a !in xs[r.value + 1..]
  {
    if xs == [] then None
    else if xs[|xs| - 1] == a then Some(|xs| - 1)
    else
      var r := LastIndexOf(xs[..|xs| - 1], a);
      assert xs == xs[..|xs| - 1] + [xs[|xs| - 1]];
      if r.Some? then
        assert xs[r.value + 1..] == xs[..|xs| - 1][r.value + 1..] + [xs[|xs| - 1]];
        r
      else r
  }

  /** Array.prototype.find by id: the first record carrying `id`, if any. */
  function Find(cs: seq<Candidate>, id: int): (r: Option<Candidate>)
    ensures r.Some? <==> HasId(cs, id)
    ensures r.Some? ==> r.value.id == id
    ensures r.Some? ==> exists i :: 0 <= i < |cs| && cs[i] == r.value && forall j :: 0 <= j < i ==> cs[j].id != id
  {
    if cs == [] then None
    else if cs[0].id == id then Some(cs[0])
    else
      var r := Find(cs[1..], id);
      assert HasId(cs, id) ==> HasId(cs[1..], id) by {
        if HasId(cs, id) {
          var i :| 0 <= i < |cs| && cs[i].id == id;
          assert cs[1..][i - 1].id == id;
        }
      }
      if r.Some? then
        var i :| 0 <= i < |cs[1..]| && cs[1..][i] == r.value && forall j :: 0 <= j < i ==> cs[1..][j].id != id;
        assert cs[i + 1] == r.value;
        assert forall j :: 0 <= j < i + 1 ==> cs[j].id != id by {
          forall j | 0 <= j < i + 1 ensures cs[j].id != id {
            if j > 0 { assert cs[j] == cs[1..][j - 1]; }
          }
        }
        r
      else r
  }

  /** Commit of a confirmed update: every record with `id` becomes `updated`; the rest stay. */
  function ReplaceById(cs: seq<Candidate>, id: int, updated: Candidate): (r: seq<Candidate>)
    ensures |r| == |cs|
    ensures forall i :: 0 <= i < |cs| ==> r[i] == if cs[i].id == id then updated else cs[i]
  {
    if cs == [] then [] else [if cs[0].id == id then updated else cs[0]] + ReplaceById(cs[1..], id, updated)
  }

  /**
   * The record shown while a create is pending: the payload's fields, the
   * millisecond clock reading as id, the two ISO clock readings (taken one
   * after the other) as creation and update time, status defaulting to
   * active, an empty description when none is given, and no skills.
   */
  function OptimisticRecord(p: CreatePayload, nowMillis: int, createdIso: string, updatedIso: string): (c: Candidate)
    ensures c.id == nowMillis && c.name == p.name && c.position == p.position
    ensures p.status.None? ==> c.status == Active
    ensures p.status.Some? ==> c.status == p.status.value
    ensures c.skills == [] && c.createdAt == createdIso && c.updatedAt == updatedIso
    ensures c.contact.Some? && c.contact.value.email == p.email && c.contact.value.phone == p.phone
    ensures p.description.None? || p.description.value == "" ==> c.contact.value.description == ""
    ensures p.description.Some? && p.description.value != "" ==> c.contact.value.description == p.description.value
  {
    Candidate(
      nowMillis, p.name, p.position,
      if p.status.Some? then p.status.value else Active,
      [], createdIso, updatedIso,
      Some(Contact(p.email, p.phone, OrElse(p.description, ""))))
  }

  /** Applying one more overlay is one reducer step over the current view. */
  lemma ApplyPushed(state: seq<Candidate>, actions: seq<Action>, a: Action, now: string)
    ensures ApplyOverlays(state, actions + [a], now) == Reduce(ApplyOverlays(state, actions, now), a, now)
  {
    assert (actions + [a])[..|actions|] == actions;
  }

  /**
   * Right after an update begins, readers see the new status and timestamp on
   * the record, which is still present.
   */
  lemma OptimisticStatusVisible(state: seq<Candidate>, actions: seq<Action>, id: int, status: Status, now: string)
    requires HasId(state, id)
    ensures var v := ApplyOverlays(state, actions + [UpdateStatus(id, status)], now);
      HasId(v, id) && forall i :: 0 <= i < |v| && v[i].id == id ==> v[i].status == status && v[i].updatedAt == now
  {
    ApplyPushed(state, actions, UpdateStatus(id, status), now);
    var before := ApplyOverlays(state, actions, now);
    var after := ApplyStatus(before, id, status, now);
    assert ApplyOverlays(state, actions + [UpdateStatus(id, status)], now) == after;
    assert HasId(before, id);
    var i :| 0 <= i < |before| && before[i].id == id;
    assert after[i].id == id;
  }

  /** Right after a create begins, readers see the optimistic record first. */
  lemma OptimisticAddVisible(state: seq<Candidate>, actions: seq<Action>, c: Candidate, now: string)
    ensures var v := ApplyOverlays(state, actions + [Add(c)], now);
      |v| > 0 && v[0] == c && v[1..] == ApplyOverlays(state, actions, now)
  {
    ApplyPushed(state, actions, Add(c), now);
  }

  /**
   * A record created optimistically is visible while its create is pending,
   * yet the update lookup, which searches the authoritative list, does not
   * find it.
   */
  lemma PendingCreateNotUpdatable(state: seq<Candidate>, actions: seq<Action>, c: Candidate, now: string)
    requires !HasId(state, c.id)
    ensures HasId(ApplyOverlays(state, actions + [Add(c)], now), c.id)
    ensures Find(state, c.id).None?
  {
    OptimisticAddVisible(state, actions, c, now);
    assert ApplyOverlays(state, actions + [Add(c)], now)[0].id == c.id;
  }

  /** Discarding the overlay an operation pushed gives back the view from before it began. */
  lemma DiscardRestoresView(state: seq<Candidate>, actions: seq<Action>, a: Action, now: string)
    ensures ApplyOverlays(state, RemoveLast(actions + [a], a), now) == ApplyOverlays(state, actions, now)
  {
    var xs := actions + [a];
    assert LastIndexOf(xs, a) == Some(|actions|);
    assert xs[..|actions|] == actions && xs[|actions| + 1..] == [];
    assert RemoveLast(xs, a) == actions;
  }

  /**
   * With unique ids, a server record that agrees with the optimistic guess
   * commits to exactly the list the overlay showed.
   */
  lemma ConfirmedUpdateMatchesOverlay(cs: seq<Candidate>, k: int, status: Status, now: string)
    requires UniqueIds(cs) && 0 <= k < |cs|
    ensures ReplaceById(cs, cs[k].id, cs[k].(status := status, updatedAt := now)) == ApplyStatus(cs, cs[k].id, status, now)
  {
    var a := ReplaceById(cs, cs[k].id, cs[k].(status := status, updatedAt := now));
    var b := ApplyStatus(cs, cs[k].id, status, now);
    forall i | 0 <= i < |cs| ensures a[i] == b[i] {
      if cs[i].id == cs[k].id {
        assert i == k;
      }
    }
  }

  /** The candidate data layer: authoritative list, fetch state and pending overlays. */
  class Store {
    var candidates: seq<Candidate>
    var overlays: seq<Action>
    var loading: bool
    var error: Option<string>

    /** Initially empty and loading, with no error. */
    constructor ()
      ensures candidates == [] && overlays == [] && loading && error == None
    {
      candidates := [];
      overlays := [];
      loading := true;
      error := None;
    }

    /** What readers see: the authoritative list with every pending overlay applied. */
    function View(now: string): (v: seq<Candidate>)
      reads this
      ensures forall id :: HasId(candidates, id) ==> HasId(v, id)
    {
      ApplyOverlays(candidates, overlays, now)
    }

    /** Fetch, first step: loading, error cleared; returns the page and limit requested. */
    method BeginFetch() returns (page: int, limit: int)
      modifies this
      ensures loading && error == None
      ensures candidates == old(candidates) && overlays == old(overlays)
      ensures page == FETCH_PAGE && limit == FETCH_LIMIT
    {
      loading := true;
      error := None;
      page, limit := FETCH_PAGE, FETCH_LIMIT;
    }

    /**
     * Fetch, second step: the response data replaces the list, or the
     * classified failure becomes the error and the list stays; loading ends
     * either way.
     */
    method SettleFetch(response: Result<seq<Candidate>, Thrown>)
      modifies this
      ensures !loading && overlays == old(overlays)
      ensures response.Success? ==> candidates == response.value && error == old(error)
      ensures response.Failure? ==> candidates == old(candidates) && error == Some(GetErrorMessage(response.error))
    {
      if response.Success? {
        candidates := response.value;
      } else {
        error := Some(GetErrorMessage(response.error));
      }
      loading := false;
    }

    /**
     * Status update, first step. An id missing from the authoritative list
     * fails with "Candidate not found" and changes nothing; otherwise the
     * update_status overlay is pushed and the service is to be called.
     */
    method BeginUpdateStatus(id: int, status: Status) returns (r: Result<Action, Thrown>)
      modifies this
      ensures r.Failure? <==> !HasId(candidates, id)
      ensures r.Failure? ==> r.error == Plain(NOT_FOUND_MESSAGE) && overlays == old(overlays)
      ensures r.Success? ==> r.value == UpdateStatus(id, status) && overlays == old(overlays) + [r.value]
      ensures candidates == old(candidates) && loading == old(loading) && error == old(error)
    {
      var found := Find(candidates, id);
      if found.None? {
        return Failure(Plain(NOT_FOUND_MESSAGE));
      }
      overlays := overlays + [UpdateStatus(id, status)];
      r := Success(UpdateStatus(id, status));
    }

    /**
     * Status update, second step: the overlay is discarded; on success the
     * server record replaces the one with `id` and is returned, on failure the
     * list is unchanged and the error is rethrown.
     */
    method SettleUpdateStatus(id: int, status: Status, response: Result<Candidate, Thrown>)
      returns (r: Result<Candidate, Thrown>)
      modifies this
      ensures overlays == RemoveLast(old(overlays), UpdateStatus(id, status))
      ensures r == response
      ensures response.Success? ==> candidates == ReplaceById(old(candidates), id, response.value)
      ensures response.Failure? ==> candidates == old(candidates)
      ensures loading == old(loading) && error == old(error)
    {
      overlays := RemoveLast(overlays, UpdateStatus(id, status));
      if response.Success? {
        candidates := ReplaceById(candidates, id, response.value);
      }
      r := response;
    }

    /** Create, first step: the optimistic record is prepended to the view through an add overlay. */
    method BeginCreate(payload: CreatePayload, nowMillis: int, createdIso: string, updatedIso: string) returns (optimistic: Candidate)
      modifies this
      ensures optimistic == OptimisticRecord(payload, nowMillis, createdIso, updatedIso)
      ensures overlays == old(overlays) + [Add(optimistic)]
      ensures candidates == old(candidates) && loading == old(loading) && error == old(error)
    {
      optimistic := OptimisticRecord(payload, nowMillis, createdIso, updatedIso);
      overlays := overlays + [Add(optimistic)];
    }

    /**
     * Create, second step: the overlay is discarded; on success the server
     * record is prepended to the list and returned, on failure the list is
     * unchanged and the error is rethrown.
     */
    method SettleCreate(optimistic: Candidate, response: Result<Candidate, Thrown>) returns (r: Result<Candidate, Thrown>)
      modifies this
      ensures overlays == RemoveLast(old(overlays), Add(optimistic))
      ensures r == response
      ensures response.Success? ==> candidates == [response.value] + old(candidates)
      ensures response.Failure? ==> candidates == old(candidates)
      ensures loading == old(loading) && error == old(error)
    {
      overlays := RemoveLast(overlays, Add(optimistic));
      if response.Success? {
        candidates := [response.value] + candidates;
      }
      r := response;
    }
  }

  /**
   * A record in interview status is updated to active against a store that
   * has just loaded it: while the call is pending the view shows it active,
   * and after the call fails the view shows the original record again.
   */
  method OptimisticUpdateScenario(rec: Candidate, failure: Thrown, now: string)
    returns (pending: seq<Candidate>, settled: seq<Candidate>)
    requires rec.status == Interview
    ensures pending == [rec.(status := Active, updatedAt := now)]
    ensures settled == [rec]
  {
    var store := new Store();
    var page, limit := store.BeginFetch();
    store.SettleFetch(Success([rec]));
    assert HasId(store.candidates, rec.id) by { assert store.candidates[0].id == rec.id; }
    var begun := store.BeginUpdateStatus(rec.id, Active);
    OptimisticStatusVisible([rec], [], rec.id, Active, now);
    pending := store.View(now);
    assert pending == ApplyStatus([rec], rec.id, Active, now);
    var result := store.SettleUpdateStatus(rec.id, Active, Failure(failure));
    DiscardRestoresView([rec], [], UpdateStatus(rec.id, Active), now);
    settled := store.View(now);
  }
}
