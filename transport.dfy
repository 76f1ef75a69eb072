/**
 * The RoadRunner worker connection (`WorkerInterface`): the stream of
 * payloads it delivers and the payloads the application sends back. The
 * transport itself is I/O; the model replaces it by a scripted inbox and a
 * record of what was sent.
 */
module Transport {
  import opened Wrappers

  /** `Spiral\RoadRunner\Payload`: a body and a header, both strings. */
  datatype Payload = Payload(body: string, header: string := "")

  /** What one `waitPayload()` call does: deliver a payload or null, or throw. */
  datatype Receive = Delivered(payload: Option<Payload>) | Fails(reason: string)

  class Worker {
    /** The outcomes of the next `waitPayload()` calls, in order. */
    var inbox: seq<Receive>
    /** Every payload passed to `respond()`, in order. */
    var sent: seq<Payload>

    constructor (script: seq<Receive>)
      ensures inbox == script && sent == []
    {
      inbox := script;
      sent := [];
    }

    /**
     * `waitPayload()`: consumes exactly one scripted outcome. An exhausted
     * inbox reads as the stop signal, null.
     */
    method WaitPayload() returns (r: Receive)
      modifies this
      ensures old(inbox) == [] ==> r == Delivered(None) && inbox == []
      ensures old(inbox) != [] ==> r == old(inbox)[0] && inbox == old(inbox)[1..]
      ensures sent == old(sent)
    {
      if inbox == [] {
        r := Delivered(None);
      } else {
        r := inbox[0];
        inbox := inbox[1..];
      }
    }

    /** `respond($payload)`: one more payload on the wire, nothing else. */
    method Respond(p: Payload)
      modifies this
      ensures sent == old(sent) + [p]
      ensures inbox == old(inbox)
    {
      sent := sent + [p];
    }
  }
}
