/**
 * The new-alert form: choosing the recipients one by one, and the guard and
 * payload of sending the alert.
 */
module CreateNotification {
  import opened Wrappers
  import opened Text
  import opened Lists

  /**
   * `toggleRecipient`: an id already chosen is removed wherever it occurs,
   * otherwise it is appended.
   */
  function Toggle(chosen: seq<string>, id: string): (r: seq<string>)
    ensures id in r <==> id !in chosen
    ensures forall other :: other != id ==> (other in r <==> other in chosen)
  {
    if id in chosen then Filter(chosen, r => r != id) else chosen + [id]
  }

  /** A list without repetitions stays without repetitions. */
  lemma ToggleKeepsDistinct(chosen: seq<string>, id: string)
    requires Distinct(chosen)
    ensures Distinct(Toggle(chosen, id))
  {
    if id in chosen {
      FilterDistinct(chosen, r => r != id);
    }
  }

  /** Choosing an id and then un-choosing it gives the list back. */
  lemma ToggleTwiceRestores(chosen: seq<string>, id: string)
    requires id !in chosen
    ensures Toggle(Toggle(chosen, id), id) == chosen
  {
    FilterAppend(chosen, [id], r => r != id);
    FilterAll(chosen, r => r != id);
    assert Filter([id], r => r != id) == [];
  }

  /** What the form sends. */
  datatype Alert = Alert(title: string, message: string, recipients: seq<string>)

  /** The guard of `handleSubmit`: a title, a message and at least one recipient. */
  predicate CanSend(title: string, message: string, recipients: seq<string>)
  {
    !IsBlank(title) && !IsBlank(message) && |recipients| > 0
  }

  /** The form's state. */
  class NotificationForm {
    var title: string
    var message: string
    var recipients: seq<string>

    constructor ()
      ensures title == "" && message == "" && recipients == []
    {
      title := "";
      message := "";
      recipients := [];
    }

    /** A click on a member's check box. */
    method ToggleRecipient(id: string)
      modifies this
      ensures recipients == Toggle(old(recipients), id)
      ensures title == old(title) && message == old(message)
    {
      recipients := Toggle(recipients, id);
    }

    /**
     * `handleSubmit`: nothing is sent unless the trimmed title and message are
     * non-empty and someone is chosen; the alert carries them trimmed and the
     * chosen ids, and the form is left (`onBack`) only when sending succeeds.
     */
    method Submit(ok: bool) returns (sent: Option<Alert>, back: bool)
      ensures sent.Some? <==> CanSend(title, message, recipients)
      ensures sent.Some? ==>
        && sent.value.recipients == recipients
        && sent.value.title == Trim(title) && sent.value.message == Trim(message)
        && sent.value.title != "" && sent.value.message != ""
      ensures back <==> sent.Some? && ok
    {
      var t, m := Trim(title), Trim(message);
      if t == "" || m == "" || |recipients| == 0 {
        return None, false;
      }
      sent := Some(Alert(t, m, recipients));
      back := ok;
    }
  }
}
