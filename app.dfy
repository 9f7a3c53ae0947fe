/**
 * The domain rules of App.tsx: when finalising or deleting a raffle is blocked, the record
 * each confirmation sends to the API, and the handlers that hold that state.
 */
module App {
  import opened Wrappers
  import opened Types
  import opened Seqs

  /** `costs.filter(cost => cost.isReimbursement && !cost.reimbursedDate)`. */
  function PendingCosts(costs: seq<Cost>): seq<Cost> {
    Filter(costs, Pending)
  }

  /** The content of the alert modal the handlers open. */
  datatype Alert =
    | FinalizeBlocked(pending: seq<Cost>)
    | DeleteBlockedFinalized
    | DeleteBlockedPending(pending: seq<Cost>)

  /** What a click on "finalise" or "delete" leads to: a confirmation dialog or an alert. */
  datatype ClickOutcome = AskToConfirm | Blocked(alert: Alert)

  /** `handleFinalizeRaffleClick`: reopening always asks; finalising is blocked by pending reimbursements. */
  function OnFinalizeClick(r: Raffle): ClickOutcome {
    if Flag(r.isFinalized) then AskToConfirm
    else if |PendingCosts(r.costs)| > 0 then Blocked(FinalizeBlocked(PendingCosts(r.costs)))
    else AskToConfirm
  }

  /** `handleDeleteRaffleClick`: a finalised raffle is never deleted; otherwise as for finalising. */
  function OnDeleteClick(r: Raffle): ClickOutcome {
    if Flag(r.isFinalized) then Blocked(DeleteBlockedFinalized)
    else if |PendingCosts(r.costs)| > 0 then Blocked(DeleteBlockedPending(PendingCosts(r.costs)))
    else AskToConfirm
  }

  /** The core fields sent when a toggle is confirmed: sales and costs dropped, `isFinalized` negated. */
  function ToggledCore(r: Raffle): (c: RaffleCore)
    ensures c.id == r.id && c.title == r.title && c.category == r.category
    ensures c.date == r.date && c.ticketPrice == r.ticketPrice
    ensures c.isFinalized.Some? && (Flag(c.isFinalized) <==> !Flag(r.isFinalized))
  {
    CoreOf(r).(isFinalized := Some(!Flag(r.isFinalized)))
  }

  /** `{ reimbursedDate, reimbursementNotes }` as the reimbursement modal emits it. */
  datatype ReimbursementDetails = ReimbursementDetails(reimbursedDate: DateField, reimbursementNotes: Option<string>)

  /** `{ ...cost, reimbursedDate, reimbursementNotes }`. */
  function WithReimbursement(c: Cost, d: ReimbursementDetails): Cost {
    c.(reimbursedDate := d.reimbursedDate, reimbursementNotes := d.reimbursementNotes)
  }

  /** `{ ...cost, reimbursedDate: undefined, reimbursementNotes: undefined }`. */
  function WithoutReimbursement(c: Cost): Cost {
    c.(reimbursedDate := Unset, reimbursementNotes := None)
  }

  /** `history.find(h => h.id === logId)`. */
  function FindLog(history: seq<HistoryLog>, logId: string): Option<HistoryLog> {
    Find(history, (h: HistoryLog) => h.id == logId)
  }

  /** A request the handlers send to the API. */
  datatype ApiCall =
    | RaffleUpdate(core: RaffleCore)                 // api.updateRaffle(core)
    | CostUpdate(raffleId: string, cost: Cost)       // api.updateEntry(raffleId, 'cost', cost)

  /** A cost together with the raffle it belongs to. */
  datatype CostRef = CostRef(raffleId: string, cost: Cost)

  /**
   * The part of the App component's state these handlers read and set. `requests` lists the
   * API calls issued, in order; reloading the data after a call is not modelled.
   */
  class AppState {
    var history: seq<HistoryLog>
    var raffleToToggleFinalize: Option<Raffle>
    var raffleToDelete: Option<Raffle>
    var alertModalContent: Option<Alert>
    var costToReimburse: Option<CostRef>
    var reimbursementToDelete: Option<CostRef>
    var logToUndo: Option<HistoryLog>
    var alertMessage: Option<string>
    var requests: seq<ApiCall>

    constructor (history: seq<HistoryLog>)
      ensures this.history == history && requests == []
      ensures raffleToToggleFinalize == None && raffleToDelete == None && alertModalContent == None
      ensures costToReimburse == None && reimbursementToDelete == None && logToUndo == None && alertMessage == None
    {
      this.history := history;
      raffleToToggleFinalize, raffleToDelete, alertModalContent := None, None, None;
      costToReimburse, reimbursementToDelete, logToUndo, alertMessage := None, None, None, None;
      requests := [];
    }

    method FinalizeRaffleClick(r: Raffle)
      modifies this
      ensures OnFinalizeClick(r) == AskToConfirm ==>
        raffleToToggleFinalize == Some(r) && alertModalContent == old(alertModalContent)
      ensures OnFinalizeClick(r).Blocked? ==>
        alertModalContent == Some(OnFinalizeClick(r).alert) && raffleToToggleFinalize == old(raffleToToggleFinalize)
      ensures raffleToDelete == old(raffleToDelete) && requests == old(requests)
      ensures costToReimburse == old(costToReimburse) && reimbursementToDelete == old(reimbursementToDelete)
      ensures logToUndo == old(logToUndo) && alertMessage == old(alertMessage) && history == old(history)
    {
      if Flag(r.isFinalized) {
        raffleToToggleFinalize := Some(r);
        return;
      }
      var pendingCosts := PendingCosts(r.costs);
      if |pendingCosts| > 0 {
        alertModalContent := Some(FinalizeBlocked(pendingCosts));
      } else {
        raffleToToggleFinalize := Some(r);
      }
    }

    method DeleteRaffleClick(r: Raffle)
      modifies this
      ensures OnDeleteClick(r) == AskToConfirm ==>
        raffleToDelete == Some(r) && alertModalContent == old(alertModalContent)
      ensures OnDeleteClick(r).Blocked? ==>
        alertModalContent == Some(OnDeleteClick(r).alert) && raffleToDelete == old(raffleToDelete)
      ensures raffleToToggleFinalize == old(raffleToToggleFinalize) && requests == old(requests)
      ensures costToReimburse == old(costToReimburse) && reimbursementToDelete == old(reimbursementToDelete)
      ensures logToUndo == old(logToUndo) && alertMessage == old(alertMessage) && history == old(history)
    {
      if Flag(r.isFinalized) {
        alertModalContent := Some(DeleteBlockedFinalized);
        return;
      }
      var pendingCosts := PendingCosts(r.costs);
      if |pendingCosts| > 0 {
        alertModalContent := Some(DeleteBlockedPending(pendingCosts));
      } else {
        raffleToDelete := Some(r);
      }
    }

    /** `handleConfirmToggleFinalize`; `apiFails` says whether the update request throws. */
    method ConfirmToggleFinalize(apiFails: bool)
      modifies this
      ensures old(raffleToToggleFinalize).None? ==>
        requests == old(requests) && alertMessage == old(alertMessage) && raffleToToggleFinalize == None
      ensures old(raffleToToggleFinalize).Some? ==>
        && requests == old(requests) + [RaffleUpdate(ToggledCore(old(raffleToToggleFinalize).value))]
        && alertMessage == (if apiFails then Some("Falha ao atualizar o status da rifa.") else old(alertMessage))
        && raffleToToggleFinalize == None
      ensures raffleToDelete == old(raffleToDelete) && alertModalContent == old(alertModalContent)
      ensures costToReimburse == old(costToReimburse) && reimbursementToDelete == old(reimbursementToDelete)
      ensures logToUndo == old(logToUndo) && history == old(history)
    {
      if raffleToToggleFinalize.None? {
        return;
      }
      var r := raffleToToggleFinalize.value;
      requests := requests + [RaffleUpdate(ToggledCore(r))];
      if apiFails {
        alertMessage := Some("Falha ao atualizar o status da rifa.");
      }
      raffleToToggleFinalize := None;
    }

    /** `handleSaveReimbursement`: the modal is closed only when the update succeeds. */
    method SaveReimbursement(details: ReimbursementDetails, apiFails: bool)
      modifies this
      ensures old(costToReimburse).None? ==> requests == old(requests) && costToReimburse == None && alertMessage == old(alertMessage)
      ensures old(costToReimburse).Some? ==>
        && var ref := old(costToReimburse).value;
        && requests == old(requests) + [CostUpdate(ref.raffleId, WithReimbursement(ref.cost, details))]
        && (apiFails ==> costToReimburse == old(costToReimburse) && alertMessage == Some("Falha ao registrar o reembolso."))
        && (!apiFails ==> costToReimburse == None && alertMessage == old(alertMessage))
      ensures raffleToToggleFinalize == old(raffleToToggleFinalize) && raffleToDelete == old(raffleToDelete)
      ensures alertModalContent == old(alertModalContent) && reimbursementToDelete == old(reimbursementToDelete)
      ensures logToUndo == old(logToUndo) && history == old(history)
    {
      if costToReimburse.None? {
        return;
      }
      var ref := costToReimburse.value;
      var updatedCost := WithReimbursement(ref.cost, details);
      requests := requests + [CostUpdate(ref.raffleId, updatedCost)];
      if apiFails {
        alertMessage := Some("Falha ao registrar o reembolso.");
      } else {
        costToReimburse := None;
      }
    }

    /** `handleConfirmDeleteReimbursement`. */
    method ConfirmDeleteReimbursement(apiFails: bool)
      modifies this
      ensures old(reimbursementToDelete).None? ==> requests == old(requests) && alertMessage == old(alertMessage)
      ensures old(reimbursementToDelete).Some? ==>
        && var ref := old(reimbursementToDelete).value;
        && requests == old(requests) + [CostUpdate(ref.raffleId, WithoutReimbursement(ref.cost))]
        && alertMessage == (if apiFails then Some("Falha ao remover o reembolso.") else old(alertMessage))
      ensures reimbursementToDelete == None
      ensures raffleToToggleFinalize == old(raffleToToggleFinalize) && raffleToDelete == old(raffleToDelete)
      ensures alertModalContent == old(alertModalContent) && costToReimburse == old(costToReimburse)
      ensures logToUndo == old(logToUndo) && history == old(history)
    {
      if reimbursementToDelete.None? {
        return;
      }
      var ref := reimbursementToDelete.value;
      requests := requests + [CostUpdate(ref.raffleId, WithoutReimbursement(ref.cost))];
      if apiFails {
        alertMessage := Some("Falha ao remover o reembolso.");
      }
      reimbursementToDelete := None;
    }

    /** `handleUndoActionClick`: selects the log only if the loaded history has that id. */
    method UndoActionClick(logId: string)
      modifies this
      ensures FindLog(history, logId).Some? ==> logToUndo == FindLog(history, logId)
      ensures FindLog(history, logId).None? ==> logToUndo == old(logToUndo)
      ensures raffleToToggleFinalize == old(raffleToToggleFinalize) && raffleToDelete == old(raffleToDelete)
      ensures alertModalContent == old(alertModalContent) && costToReimburse == old(costToReimburse)
      ensures reimbursementToDelete == old(reimbursementToDelete) && alertMessage == old(alertMessage)
      ensures requests == old(requests) && history == old(history)
    {
      var log := FindLog(history, logId);
      if log.Some? {
        logToUndo := log;
      }
    }
  }

  // ---------------------------------------------------------------------------
  // Properties
  // ---------------------------------------------------------------------------

  /**
   * Finalising an open raffle is blocked iff one of its costs is a pending reimbursement, and
   * the alert lists exactly those costs in order; reopening a finalised raffle is never blocked.
   */
  lemma FinalizeBlockedIffPending(r: Raffle)
    ensures OnFinalizeClick(r).Blocked? <==> !Flag(r.isFinalized) && exists c :: c in r.costs && Pending(c)
    ensures Flag(r.isFinalized) ==> OnFinalizeClick(r) == AskToConfirm
    ensures OnFinalizeClick(r).Blocked? ==> (OnFinalizeClick(r).alert.FinalizeBlocked?
      && |OnFinalizeClick(r).alert.pending| > 0
      && Subsequence(OnFinalizeClick(r).alert.pending, r.costs)
      && forall c :: c in OnFinalizeClick(r).alert.pending <==> c in r.costs && Pending(c))
  {
    if !Flag(r.isFinalized) && exists c :: c in r.costs && Pending(c) {
      var c :| c in r.costs && Pending(c);
      assert c in PendingCosts(r.costs);
    }
  }

  /**
   * A finalised raffle can never be deleted, whatever its costs; an open one is blocked iff
   * it has a pending reimbursement, and the alert lists exactly those costs.
   */
  lemma DeleteBlockedRules(r: Raffle)
    ensures Flag(r.isFinalized) ==> OnDeleteClick(r) == Blocked(DeleteBlockedFinalized)
    ensures !Flag(r.isFinalized) ==>
      (OnDeleteClick(r).Blocked? <==> exists c :: c in r.costs && Pending(c))
    ensures OnDeleteClick(r).Blocked? && !Flag(r.isFinalized) ==> (OnDeleteClick(r).alert.DeleteBlockedPending?
      && forall c :: c in OnDeleteClick(r).alert.pending <==> c in r.costs && Pending(c))
    ensures OnDeleteClick(r) == AskToConfirm ==> OnFinalizeClick(r) == AskToConfirm
  {
    if !Flag(r.isFinalized) && exists c :: c in r.costs && Pending(c) {
      var c :| c in r.costs && Pending(c);
      assert c in PendingCosts(r.costs);
    }
  }

  /**
   * An undo click selects a log iff the loaded history has one with that id, and the log it
   * selects has that id.
   */
  lemma UndoSelectsLoadedLog(history: seq<HistoryLog>, logId: string)
    ensures FindLog(history, logId).Some? <==> exists i :: 0 <= i < |history| && history[i].id == logId
    ensures FindLog(history, logId).Some? ==>
      FindLog(history, logId).value in history && FindLog(history, logId).value.id == logId
  {
  }

  /** Confirming the toggle twice sends back the original flag: the toggle is an involution. */
  lemma ToggleTwiceRestores(r: Raffle)
    ensures var once := r.(isFinalized := ToggledCore(r).isFinalized);
      Flag(ToggledCore(once).isFinalized) == Flag(r.isFinalized)
      && ToggledCore(once).id == r.id
  {
  }

  /**
   * Recording a reimbursement keeps the cost's id and every other field and turns a
   * reimbursable cost into a completed one; removing it clears the two fields again, so the
   * cost is pending once more. Removal undoes recording, whatever was recorded.
   */
  lemma ReimbursementRoundTrip(c: Cost, d: ReimbursementDetails)
    requires d.reimbursedDate.On?
    ensures var recorded := WithReimbursement(c, d);
      && recorded.id == c.id && recorded.description == c.description && recorded.amount == c.amount
      && recorded.date == c.date && recorded.isDonation == c.isDonation
      && recorded.isReimbursement == c.isReimbursement && recorded.notes == c.notes
      && (Reimbursable(c) ==> Reimbursed(recorded))
      && WithoutReimbursement(recorded) == WithoutReimbursement(c)
      && (Reimbursable(c) ==> Pending(WithoutReimbursement(recorded)))
      && WithReimbursement(WithoutReimbursement(c), d) == recorded
  {
  }
}
