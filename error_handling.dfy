/** The error-handling example: a file operation retried a bounded number of
    times, and an order checked by a chain of guards that each throw.

    The file operation and the pause between attempts are not shown in the
    example; they are modelled as oracles indexed by how many times they have
    been used before: `processFile(k)` is what the (k+1)-th call does, and
    `sleepInterrupted(k)` whether the (k+1)-th pause is interrupted. Logging
    is left out. */
module ErrorHandling {
  import opened Wrappers

  const MAX_RETRIES: nat := 3

  const INTERRUPTED_MESSAGE: string := "File processing interrupted"

  /** The message of the exception thrown after the last failed attempt
      (MAX_RETRIES written out as "3"). */
  function FailureMessage(fileName: string): string
  {
    "Unable to process file '" + fileName + "' after 3 attempts"
  }

  // ---------------------------------------------------------------------
  // processFileWithRetry
  // ---------------------------------------------------------------------

  /** What one call of processFile does: return, throw an IOException, or
      throw any other exception. */
  datatype FileOutcome = Processed | IOFailure | OtherFailure

  /** How processFileWithRetry ends. */
  datatype RetryExit =
    | Returned                              // a call succeeded
    | FileProcessingFailed(message: string) // the last allowed call threw an IOException
    | Interrupted(message: string)          // a pause between attempts was interrupted
    | Propagated                            // a call threw something other than an IOException

  /** The end of a run, with the number of calls made, the number of pauses
      begun, and whether the thread's interrupt status was set again. */
  datatype Run = Run(exit: RetryExit, calls: nat, sleeps: nat, interruptFlag: bool)

  /** What a run of processFileWithRetry must look like: every call but the
      last threw an IOException and was followed by an uninterrupted pause,
      and the last call (or the pause after it) decides how the run ends. */
  predicate IsRunOf(processFile: nat -> FileOutcome, sleepInterrupted: nat -> bool,
                    fileName: string, run: Run)
  {
    && 1 <= run.calls <= MAX_RETRIES
    && (forall i :: 0 <= i < run.calls - 1 ==> processFile(i) == IOFailure && !sleepInterrupted(i))
    && var last := processFile(run.calls - 1);
       match run.exit
       case Returned =>
         last == Processed && run.sleeps == run.calls - 1 && !run.interruptFlag
       case Propagated =>
         last == OtherFailure && run.sleeps == run.calls - 1 && !run.interruptFlag
       case FileProcessingFailed(message) =>
         && last == IOFailure && run.calls == MAX_RETRIES && run.sleeps == run.calls - 1
         && message == FailureMessage(fileName) && !run.interruptFlag
       case Interrupted(message) =>
         && last == IOFailure && run.calls < MAX_RETRIES && sleepInterrupted(run.calls - 1)
         && run.sleeps == run.calls && message == INTERRUPTED_MESSAGE && run.interruptFlag
  }

  method ProcessFileWithRetry(fileName: string, processFile: nat -> FileOutcome, sleepInterrupted: nat -> bool)
    returns (run: Run)
    ensures IsRunOf(processFile, sleepInterrupted, fileName, run)
  {
    var attempt := 0;
    var calls, sleeps := 0, 0;
    while attempt < MAX_RETRIES
      invariant attempt < MAX_RETRIES
      invariant calls == attempt && sleeps == attempt
      invariant forall i :: 0 <= i < attempt ==> processFile(i) == IOFailure && !sleepInterrupted(i)
      decreases MAX_RETRIES - attempt
    {
      var outcome := processFile(calls);
      calls := calls + 1;
      match outcome {
        case Processed =>
          return Run(Returned, calls, sleeps, false);
        case OtherFailure =>
          return Run(Propagated, calls, sleeps, false);
        case IOFailure =>
      }
      attempt := attempt + 1;
      if attempt == MAX_RETRIES {
        return Run(FileProcessingFailed(FailureMessage(fileName)), calls, sleeps, false);
      }
      var interrupted := sleepInterrupted(sleeps);
      sleeps := sleeps + 1;
      if interrupted {
        return Run(Interrupted(INTERRUPTED_MESSAGE), calls, sleeps, true);
      }
    }
    assert false;
  }

  /** The oracles determine the run: there is exactly one. */
  lemma RunIsUnique(processFile: nat -> FileOutcome, sleepInterrupted: nat -> bool,
                    fileName: string, r1: Run, r2: Run)
    requires IsRunOf(processFile, sleepInterrupted, fileName, r1)
    requires IsRunOf(processFile, sleepInterrupted, fileName, r2)
    ensures r1 == r2
  {
  }

  /** If the first success is call k (after k - 1 IOExceptions and as many
      uninterrupted pauses), the method returns after k calls and k - 1
      pauses. */
  lemma FirstSuccessReturns(processFile: nat -> FileOutcome, sleepInterrupted: nat -> bool,
                            fileName: string, run: Run, k: nat)
    requires 1 <= k <= MAX_RETRIES
    requires forall i :: 0 <= i < k - 1 ==> processFile(i) == IOFailure && !sleepInterrupted(i)
    requires processFile(k - 1) == Processed
    requires IsRunOf(processFile, sleepInterrupted, fileName, run)
    ensures run == Run(Returned, k, k - 1, false)
  {
    RunIsUnique(processFile, sleepInterrupted, fileName, run, Run(Returned, k, k - 1, false));
  }

  /** Three IOExceptions in a row, with the two pauses between them
      uninterrupted, end in FileProcessingException after exactly three calls
      and two pauses: there is no pause after the last failure. */
  lemma ThreeFailuresThrow(processFile: nat -> FileOutcome, sleepInterrupted: nat -> bool,
                           fileName: string, run: Run)
    requires forall i :: 0 <= i < 3 ==> processFile(i) == IOFailure
    requires !sleepInterrupted(0) && !sleepInterrupted(1)
    requires IsRunOf(processFile, sleepInterrupted, fileName, run)
    ensures run == Run(FileProcessingFailed(FailureMessage(fileName)), 3, 2, false)
  {
    RunIsUnique(processFile, sleepInterrupted, fileName, run,
                Run(FileProcessingFailed(FailureMessage(fileName)), 3, 2, false));
  }

  /** An interrupted pause after call k ends the run at once: no further
      call is made and the interrupt status is set again. */
  lemma InterruptStops(processFile: nat -> FileOutcome, sleepInterrupted: nat -> bool,
                       fileName: string, run: Run, k: nat)
    requires 1 <= k < MAX_RETRIES
    requires forall i :: 0 <= i < k ==> processFile(i) == IOFailure
    requires forall i :: 0 <= i < k - 1 ==> !sleepInterrupted(i)
    requires sleepInterrupted(k - 1)
    requires IsRunOf(processFile, sleepInterrupted, fileName, run)
    ensures run == Run(Interrupted(INTERRUPTED_MESSAGE), k, k, true)
  {
    RunIsUnique(processFile, sleepInterrupted, fileName, run,
                Run(Interrupted(INTERRUPTED_MESSAGE), k, k, true));
  }

  /** Only IOException is retried: any other exception escapes from the call
      that threw it. */
  lemma OtherFailurePropagates(processFile: nat -> FileOutcome, sleepInterrupted: nat -> bool,
                               fileName: string, run: Run, k: nat)
    requires 1 <= k <= MAX_RETRIES
    requires forall i :: 0 <= i < k - 1 ==> processFile(i) == IOFailure && !sleepInterrupted(i)
    requires processFile(k - 1) == OtherFailure
    requires IsRunOf(processFile, sleepInterrupted, fileName, run)
    ensures run == Run(Propagated, k, k - 1, false)
  {
    RunIsUnique(processFile, sleepInterrupted, fileName, run, Run(Propagated, k, k - 1, false));
  }

  // ---------------------------------------------------------------------
  // processOrder
  // ---------------------------------------------------------------------

  /** An order; the item and customer types are not shown in the example.
      None stands for a null list of items or a null customer. */
  datatype Order<Item, Customer> = Order(id: string, items: Option<seq<Item>>, customer: Option<Customer>, total: real)

  /** The OrderValidationException thrown by each guard, with the data its
      message shows. */
  datatype OrderValidationError =
    | NullOrder
    | NoItems(orderId: string)
    | NoCustomer(orderId: string)
    | InvalidTotal(orderId: string, total: real)

  datatype Validation = Accepted | Rejected(error: OrderValidationError)

  predicate HasItems<Item, Customer>(order: Order<Item, Customer>)
  {
    order.items.Some? && |order.items.value| > 0
  }

  /** processOrder: four guards in a fixed order; the first that fails
      decides the exception, and the order is accepted exactly when all
      pass. None stands for a null order. */
  method ProcessOrder<Item, Customer>(order: Option<Order<Item, Customer>>) returns (result: Validation)
    ensures result == Accepted <==>
      order.Some? && HasItems(order.value) && order.value.customer.Some? && order.value.total > 0.0
    ensures order.None? ==> result == Rejected(NullOrder)
    ensures order.Some? && !HasItems(order.value) ==> result == Rejected(NoItems(order.value.id))
    ensures order.Some? && HasItems(order.value) && order.value.customer.None? ==>
      result == Rejected(NoCustomer(order.value.id))
    ensures order.Some? && HasItems(order.value) && order.value.customer.Some? && order.value.total <= 0.0 ==>
      result == Rejected(InvalidTotal(order.value.id, order.value.total))
  {
    if order.None? {
      return Rejected(NullOrder);
    }
    var o := order.value;
    if o.items.None? || |o.items.value| == 0 {
      return Rejected(NoItems(o.id));
    }
    if o.customer.None? {
      return Rejected(NoCustomer(o.id));
    }
    if o.total <= 0.0 {
      return Rejected(InvalidTotal(o.id, o.total));
    }
    result := Accepted;
  }
}
