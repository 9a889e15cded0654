/**
 * The page: which of the four content states is shown, and the selection,
 * modal and toast bookkeeping around status changes and creation.
 */
module App {
  import opened Wrappers
  import opened CandidateTypes
  import opened ApiErrors
  import opened Sequences
  import opened CandidateFilter
  import opened UseCandidates
  import opened ToastContext

  /** The four mutually exclusive content states. */
  datatype Screen = LoadingScreen | ErrorScreen(message: string) | EmptyState | Grid(candidates: seq<Candidate>)

  /**
   * renderContent: loading wins over everything; then an error that is a
   * non-empty string; then an empty filtered list; otherwise the grid with
   * exactly the filtered list.
   */
  function RenderContent(loading: bool, error: Option<string>, filtered: seq<Candidate>): (s: Screen)
    ensures s.LoadingScreen? <==> loading
    ensures s.ErrorScreen? <==> !loading && error.Some? && error.value != ""
    ensures s.ErrorScreen? ==> s.message == error.value
    ensures s.EmptyState? <==> !loading && (error.None? || error.value == "") && filtered == []
    ensures s.Grid? <==> !loading && (error.None? || error.value == "") && filtered != []
    ensures s.Grid? ==> s.candidates == filtered
  {
    if loading then LoadingScreen
    else if error.Some? && error.value != "" then ErrorScreen(error.value)
    else if filtered == [] then EmptyState
    else Grid(filtered)
  }

  /**
   * Once a fetch that failed in transport has settled, the error screen is
   * shown with the classified message, whatever the list holds.
   */
  lemma FailedFetchShowsErrorScreen(e: TransportError, filtered: seq<Candidate>)
    ensures var message := GetErrorMessage(Intercept<seq<Candidate>>(Failed(e)).error);
      RenderContent(false, Some(message), filtered) == ErrorScreen(message)
  {
    InterceptedMessageNonEmpty(e);
  }

  /** An error recorded as the empty string is not shown: the page falls through to the list states. */
  lemma EmptyErrorIsNotShown(filtered: seq<Candidate>)
    ensures RenderContent(false, Some(""), filtered) == RenderContent(false, None, filtered)
  {
  }

  const STATUS_UPDATED_TEXT := "Status updated successfully!"
  const STATUS_FAILED_TEXT := "Failed to update status. Please try again."
  const CANDIDATE_CREATED_TEXT := "Candidate created successfully!"

  /** The toast the page shows with the given text and type and the default duration. */
  function PageToast(message: string, kind: ToastType, nowMillis: nat, randomPart: string): (t: Toast)
    ensures t.message == message && t.kind == kind && t.duration == DEFAULT_DURATION
    ensures |t.id| > 6 && t.id[..6] == "toast-"
  {
    NewToast(ToastId(nowMillis, randomPart), message, Some(kind), None)
  }

  /** The page state: the data hook, the toast provider, the selection and the add modal. */
  class AppState {
    const store: Store
    const toasts: ToastQueue
    var selected: Option<Candidate>
    var addModalOpen: bool

    constructor ()
      ensures fresh(store) && fresh(toasts)
      ensures store.candidates == [] && store.overlays == [] && store.loading && store.error == None
      ensures toasts.toasts == []
      ensures selected == None && !addModalOpen
    {
      store := new Store();
      toasts := new ToastQueue();
      selected := None;
      addModalOpen := false;
    }

    /**
     * What the page shows: the content decision over the overlay-applied
     * view filtered by the (debounced) query and the status filter. Loading
     * and a non-empty error come first; then the empty state exactly when no
     * record of the view matches, and otherwise a grid holding exactly the
     * matching records of the view, in view order and with each record as
     * many times as the view holds it.
     */
    function Content(now: string, query: string, statusFilter: StatusFilter): (s: Screen)
      reads this, store
      ensures s.LoadingScreen? <==> store.loading
      ensures s.ErrorScreen? <==> !store.loading && store.error.Some? && store.error.value != ""
      ensures s.ErrorScreen? ==> s.message == store.error.value
      ensures s.Grid? ==> IsSubsequence(s.candidates, store.View(now))
      ensures s.Grid? ==> forall c :: c in store.View(now) && Matches(c, query, statusFilter) ==> c in s.candidates
      ensures s.Grid? ==> forall i :: 0 <= i < |s.candidates| ==> Matches(s.candidates[i], query, statusFilter)
      ensures s.EmptyState? <==> !store.loading && !(store.error.Some? && store.error.value != "")
                                 && forall c :: c in store.View(now) ==> !Matches(c, query, statusFilter)
      ensures s.Grid? ==> s.candidates != []
      ensures s.Grid? ==> forall c :: multiset(s.candidates)[c] == (if Matches(c, query, statusFilter) then multiset(store.View(now))[c] else 0)
    {
      var view := store.View(now);
      var filtered := FilterCandidates(Some(view), query, statusFilter);
      assert forall c :: multiset(filtered)[c] == if Matches(c, query, statusFilter) then multiset(view)[c] else 0 by {
        forall c ensures multiset(filtered)[c] == if Matches(c, query, statusFilter) then multiset(view)[c] else 0 {
          FilterCandidatesCounts(view, query, statusFilter, c);
        }
      }
      RenderContent(store.loading, store.error, filtered)
    }

    /** handleViewDetails: the clicked record becomes the selection. */
    method ViewDetails(c: Candidate)
      modifies this
      ensures selected == Some(c) && addModalOpen == old(addModalOpen)
    {
      selected := Some(c);
    }

    /** handleCloseModal: the selection is cleared. */
    method CloseDetails()
      modifies this
      ensures selected == None && addModalOpen == old(addModalOpen)
    {
      selected := None;
    }

    method OpenAddModal()
      modifies this
      ensures addModalOpen && selected == old(selected)
    {
      addModalOpen := true;
    }

    method CloseAddModal()
      modifies this
      ensures !addModalOpen && selected == old(selected)
    {
      addModalOpen := false;
    }

    /** The error screen's retry: the list is fetched again. */
    method Retry() returns (page: int, limit: int)
      modifies store
      ensures store.loading && store.error == None
      ensures store.candidates == old(store.candidates) && store.overlays == old(store.overlays)
      ensures page == FETCH_PAGE && limit == FETCH_LIMIT
    {
      page, limit := store.BeginFetch();
    }

    /**
     * handleStatusChange up to the pending call. The selection is captured
     * here, as the handler's closure does. An unknown id fails at once and
     * shows the error toast; a known one pushes the overlay.
     */
    method BeginStatusChange(id: int, status: Status, nowMillis: nat, randomPart: string)
      returns (begun: Result<Action, Thrown>, captured: Option<Candidate>)
      modifies store, toasts
      ensures captured == selected
      ensures begun.Failure? <==> !HasId(old(store.candidates), id)
      ensures begun.Success? ==> store.overlays == old(store.overlays) + [UpdateStatus(id, status)]
      ensures begun.Failure? ==> store.overlays == old(store.overlays)
      ensures begun.Failure? ==> toasts.toasts == old(toasts.toasts) + [PageToast(STATUS_FAILED_TEXT, ErrorToast, nowMillis, randomPart)]
      ensures begun.Success? ==> toasts.toasts == old(toasts.toasts)
      ensures store.candidates == old(store.candidates) && store.loading == old(store.loading) && store.error == old(store.error)
    {
      captured := selected;
      begun := store.BeginUpdateStatus(id, status);
      if begun.Failure? {
        toasts.ShowToast(STATUS_FAILED_TEXT, Some(ErrorToast), None, nowMillis, randomPart);
      }
    }

    /**
     * handleStatusChange after the call settles. On success the selection
     * becomes the returned record only when the captured selection had this
     * id, and the success toast is shown; on failure the error toast is shown
     * and the selection stays.
     */
    method SettleStatusChange(id: int, status: Status, captured: Option<Candidate>,
                              response: Result<Candidate, Thrown>, nowMillis: nat, randomPart: string)
      modifies this, store, toasts
      ensures store.overlays == RemoveLast(old(store.overlays), UpdateStatus(id, status))
      ensures response.Success? ==> store.candidates == ReplaceById(old(store.candidates), id, response.value)
      ensures response.Failure? ==> store.candidates == old(store.candidates)
      ensures response.Success? && captured.Some? && captured.value.id == id ==> selected == Some(response.value)
      ensures !(response.Success? && captured.Some? && captured.value.id == id) ==> selected == old(selected)
      ensures response.Success? ==> toasts.toasts == old(toasts.toasts) + [PageToast(STATUS_UPDATED_TEXT, SuccessToast, nowMillis, randomPart)]
      ensures response.Failure? ==> toasts.toasts == old(toasts.toasts) + [PageToast(STATUS_FAILED_TEXT, ErrorToast, nowMillis, randomPart)]
      ensures addModalOpen == old(addModalOpen)
      ensures store.loading == old(store.loading) && store.error == old(store.error)
    {
      var settled := store.SettleUpdateStatus(id, status, response);
      if settled.Success? {
        if captured.Some? && captured.value.id == id {
          selected := Some(settled.value);
        }
        toasts.ShowToast(STATUS_UPDATED_TEXT, Some(SuccessToast), None, nowMillis, randomPart);
      } else {
        toasts.ShowToast(STATUS_FAILED_TEXT, Some(ErrorToast), None, nowMillis, randomPart);
      }
    }

    /** handleCreateCandidate up to the pending call: the optimistic record is pushed. */
    method BeginCreateCandidate(payload: CreatePayload, nowMillis: int, createdIso: string, updatedIso: string) returns (optimistic: Candidate)
      modifies store
      ensures optimistic == OptimisticRecord(payload, nowMillis, createdIso, updatedIso)
      ensures store.overlays == old(store.overlays) + [Add(optimistic)]
      ensures store.candidates == old(store.candidates) && store.loading == old(store.loading) && store.error == old(store.error)
    {
      optimistic := store.BeginCreate(payload, nowMillis, createdIso, updatedIso);
    }

    /**
     * handleCreateCandidate after the call settles: the success toast only
     * on success; a failure is handed back to the caller with no toast.
     */
    method SettleCreateCandidate(optimistic: Candidate, response: Result<Candidate, Thrown>, nowMillis: nat, randomPart: string)
      returns (r: Result<Candidate, Thrown>)
      modifies store, toasts
      ensures r == response
      ensures store.overlays == RemoveLast(old(store.overlays), Add(optimistic))
      ensures response.Success? ==> store.candidates == [response.value] + old(store.candidates)
      ensures response.Failure? ==> store.candidates == old(store.candidates)
      ensures response.Success? ==> toasts.toasts == old(toasts.toasts) + [PageToast(CANDIDATE_CREATED_TEXT, SuccessToast, nowMillis, randomPart)]
      ensures response.Failure? ==> toasts.toasts == old(toasts.toasts)
      ensures store.loading == old(store.loading) && store.error == old(store.error)
    {
      r := store.SettleCreate(optimistic, response);
      if r.Success? {
        toasts.ShowToast(CANDIDATE_CREATED_TEXT, Some(SuccessToast), None, nowMillis, randomPart);
      }
    }
  }
}
