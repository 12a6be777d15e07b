/**
 * The scheduled transaction list (`mvvm/scheduled/ScheduledTransactionsViewModel`):
 * a list kept alongside the document's, and the selected entry.  The editor
 * dialog's answer enters as an `Option` (`None` when cancelled).
 */
module ScheduledList {
  import opened Wrappers
  import opened JavaLists

  /** The identity of a `ScheduledTransaction` object. */
  type ScheduleId = nat

  /** The calls made on the document. */
  datatype ScheduleCall = AddScheduled(id: ScheduleId) | RemoveScheduled(id: ScheduleId)

  class ScheduledTransactionsViewModel {
    var scheduled: seq<ScheduleId>
    var selected: Option<ScheduleId>
    var calls: seq<ScheduleCall>

    /** `loadScheduledTransactions`: the document's list, in its order. */
    constructor (documentScheduled: seq<ScheduleId>)
      ensures scheduled == documentScheduled && selected == None && calls == []
    {
      scheduled := documentScheduled;
      selected := None;
      calls := [];
    }

    /** The view's selection. */
    method Select(t: Option<ScheduleId>)
      modifies this`selected
      ensures selected == t
    {
      selected := t;
    }

    /** `deleteSelectedTransaction`.  `removeFails` says that
        `Document.removeScheduledTransaction` throws, which leaves the list and
        the selection as they were. */
    method DeleteSelected(removeFails: bool)
      modifies this`scheduled, this`selected, this`calls
      ensures old(selected).None? || removeFails ==>
        scheduled == old(scheduled) && selected == old(selected) && calls == old(calls)
      ensures old(selected).Some? && !removeFails ==>
        scheduled == RemoveFirst(old(scheduled), old(selected).value)
        && selected == None
        && calls == old(calls) + [RemoveScheduled(old(selected).value)]
    {
      if selected.None? || removeFails {
        return;
      }
      var t := selected.value;
      calls := calls + [RemoveScheduled(t)];
      scheduled := RemoveFirst(scheduled, t);
      selected := None;
    }

    /** `createNewTransaction` with the dialog's answer `result`.  `addFails`
        says that `Document.addScheduledTransaction` throws. */
    method CreateNew(result: Option<ScheduleId>, addFails: bool)
      modifies this`scheduled, this`selected, this`calls
      ensures result.None? || addFails ==>
        scheduled == old(scheduled) && selected == old(selected) && calls == old(calls)
      ensures result.Some? && !addFails ==>
        scheduled == old(scheduled) + [result.value]
        && selected == result
        && calls == old(calls) + [AddScheduled(result.value)]
    {
      if result.None? || addFails {
        return;
      }
      calls := calls + [AddScheduled(result.value)];
      scheduled := scheduled + [result.value];
      selected := result;
    }

    /** `editSelectedTransaction` with the dialog's answer `result`: the
        entry at the selected one's index becomes the answer. */
    method EditSelected(result: Option<ScheduleId>)
      modifies this`scheduled
      ensures old(selected).None? || result.None? ==> scheduled == old(scheduled)
      ensures old(selected).Some? && result.Some? ==>
        scheduled == ReplaceFirst(old(scheduled), old(selected).value, result.value)
    {
      if selected.None? || result.None? {
        return;
      }
      var t := selected.value;
      var index := IndexOf(scheduled, t);
      if index >= 0 {
        scheduled := scheduled[index := result.value];
      }
    }
  }
}
