/**
 * The auto-expiring text of `messageLabel`. Showing a message schedules an expiry
 * for that message two seconds later; when an expiry fires it blanks the label only
 * if the label still shows the message it was scheduled for. All expiries have the
 * same delay on the same serial queue, so they fire in the order they were
 * scheduled: `pending` lists the messages of the expiries not yet fired, oldest first.
 */
module StatusMessage {
  datatype Label = Label(text: string, pending: seq<string>)

  /** Sets the label's text and schedules that message's expiry. */
  function Show(l: Label, message: string): (r: Label)
    ensures r.text == message
    ensures r.pending == l.pending + [message]
  {
    Label(message, l.pending + [message])
  }

  /** Every text the label shows is blank or the message of an expiry still to come. */
  predicate Consistent(l: Label)
  {
    l.text == "" || l.text in l.pending
  }

  /**
   * The oldest pending expiry fires: compare-and-clear against its own message.
   * With no expiry pending nothing happens.
   */
  function Expire(l: Label): (r: Label)
    ensures l.pending == [] ==> r == l
    ensures l.pending != [] ==> r.pending == l.pending[1..]
    ensures r.text == l.text || r.text == ""
    ensures r.text != l.text <==> l.pending != [] && l.text == l.pending[0] && l.text != ""
    ensures Consistent(l) ==> Consistent(r)
  {
    if l.pending == [] then l
    else
      var r := Label(if l.text == l.pending[0] then "" else l.text, l.pending[1..]);
      assert l.text in l.pending && l.text != l.pending[0] ==> l.text in r.pending by {
        if l.text in l.pending && l.text != l.pending[0] {
          var i :| 0 <= i < |l.pending| && l.pending[i] == l.text;
          assert r.pending[i - 1] == l.text;
        }
      }
      r
  }

  /** Fires every pending expiry, oldest first. */
  function ExpireAll(l: Label): Label
    decreases |l.pending|
  {
    if l.pending == [] then l else ExpireAll(Expire(l))
  }

  /** Once every scheduled expiry has fired, the label is blank: no message stays forever. */
  lemma {:induction false} AllExpiriesClear(l: Label)
    requires Consistent(l)
    ensures ExpireAll(l).text == ""
    ensures ExpireAll(l).pending == []
    decreases |l.pending|
  {
    if l.pending != [] {
      AllExpiriesClear(Expire(l));
    }
  }

  /** A message's own expiry blanks it when nothing was shown after it. */
  lemma OwnExpiryClears(l: Label, message: string)
    requires l.pending == []
    ensures Expire(Show(l, message)).text == ""
  {
  }

  /** A newer, different message survives the expiry of the older one, and falls to its own. */
  lemma NewerMessageSurvives(l: Label, older: string, newer: string)
    requires l.pending == [] && older != newer
    ensures Expire(Show(Show(l, older), newer)).text == newer
    ensures Expire(Expire(Show(Show(l, older), newer))).text == ""
  {
  }

  /**
   * The comparison is by text: when the same message is shown twice, the first
   * expiry blanks the second showing early, while its own expiry is still pending.
   */
  lemma RepeatedMessageClearedEarly(l: Label, message: string)
    requires l.pending == []
    ensures Expire(Show(Show(l, message), message)) == Label("", [message])
  {
  }
}
