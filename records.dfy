/**
 * A call record as the sweep sees it, the in-memory update the sweep makes to
 * it, and the notification built from the updated record.
 *
 * Call and TtsCall documents share every field the sweep reads; the fields only
 * one of them has (audio, template, voice, timing and answering-machine
 * settings) are never read or written by the sweep and are not carried here.
 */
module Records {
  import opened Wrappers
  import opened Classifier

  /**
   * The fields of a Call or TtsCall document that the sweep uses. `result` is
   * `None` when the field is unset, which is what saving `undefined` leaves.
   */
  datatype CallRecord = CallRecord(
    uuid: string,
    number: string,
    blasterType: string,
    pressElection: string,
    auxiliaryField: string,
    testMode: bool,
    notifyUrl: string,
    notifyHttpMethod: string,
    status: string,
    result: Option<string>)

  /** The body of the notification: exactly eight fields. */
  datatype Payload = Payload(
    uuid: string,
    status: string,
    testMode: bool,
    pressElection: string,
    blasterType: string,
    auxiliaryField: string,
    number: string,
    result: Option<string>)

  /** The request handed to the dispatcher: target, method and body. */
  datatype Request = Request(url: string, httpMethod: string, body: Payload)

  /** The in-memory document after the sweep assigns `status` and `result`. */
  function WithOutcome(c: CallRecord, outcome: Option<string>): (d: CallRecord)
    ensures d.status == Classify(outcome) && d.result == outcome
    ensures d.(status := c.status, result := c.result) == c
  {
    c.(status := Classify(outcome), result := outcome)
  }

  /**
   * The payload object literal, read off a document: each field is the
   * document's field of the same name, and its serialised form has all eight
   * keys exactly when the document has a result.
   */
  function Notification(c: CallRecord): (p: Payload)
    ensures p.uuid == c.uuid && p.status == c.status && p.testMode == c.testMode
    ensures p.pressElection == c.pressElection && p.blasterType == c.blasterType
    ensures p.auxiliaryField == c.auxiliaryField && p.number == c.number && p.result == c.result
    ensures JsonKeys(p) == PayloadKeys <==> c.result.Some?
  {
    Payload(c.uuid, c.status, c.testMode, c.pressElection, c.blasterType,
            c.auxiliaryField, c.number, c.result)
  }

  /** The request sent for a document: its own target and method, its payload. */
  function RequestFor(c: CallRecord): (req: Request)
    ensures req.url == c.notifyUrl && req.httpMethod == c.notifyHttpMethod
    ensures req.body == Notification(c)
  {
    Request(c.notifyUrl, c.notifyHttpMethod, Notification(c))
  }

  /**
   * The notification for a resolved call copies six fields of the stored
   * record unchanged and carries the classification and the raw label.
   */
  lemma NotificationOfOutcome(c: CallRecord, outcome: Option<string>)
    ensures var p := Notification(WithOutcome(c, outcome));
      && p.uuid == c.uuid && p.testMode == c.testMode && p.pressElection == c.pressElection
      && p.blasterType == c.blasterType && p.auxiliaryField == c.auxiliaryField
      && p.number == c.number
      && p.status == Classify(outcome) && p.result == outcome
      && (p.status == "success" <==> outcome == Some(Answered))
  {
  }

  /** The eight keys of the notification body. */
  const PayloadKeys: set<string> :=
    {"uuid", "status", "testMode", "pressElection", "blasterType", "auxiliaryField", "number", "result"}

  /** The keys the serialised body carries: a `result` of `undefined` is dropped. */
  function JsonKeys(p: Payload): (keys: set<string>)
    ensures p.result.Some? ==> keys == PayloadKeys && |keys| == 8
    ensures p.result.None? ==> keys == PayloadKeys - {"result"} && |keys| == 7
  {
    var always := {"uuid", "status", "testMode", "pressElection", "blasterType", "auxiliaryField", "number"};
    assert "result" !in always by {
      assert "result"[0] != "uuid"[0] && "result"[0] != "testMode"[0] && "result"[0] != "pressElection"[0];
      assert "result"[0] != "blasterType"[0] && "result"[0] != "auxiliaryField"[0] && "result"[0] != "number"[0];
      assert "result"[0] != "status"[0];
    }
    if p.result.Some? then always + {"result"} else always
  }

  /** A payload built after a draw has all eight keys exactly when a label was drawn. */
  lemma SerializedKeys(c: CallRecord, outcome: Option<string>)
    ensures JsonKeys(Notification(WithOutcome(c, outcome))) == PayloadKeys <==> outcome.Some?
  {
  }
}
