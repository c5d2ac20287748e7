/** The remote service client, seen from the controller: it accepts a
    request and answers with a payload or an error.

    The service itself is out of view, so the client is given by its
    answers: the n-th request it receives (counting from 0) gets
    `answer(n)`. The controller issues one request at a time and each request
    depends only on earlier answers, so every behaviour of the service shows
    up as some `answer` function. The client keeps a log of the requests it
    was sent, which is how the model states that an operation made no remote
    call.

    A failed request may carry any `Error` value, including the wait
    primitive's retry error and the named starting-timeout error, which the
    real client never reports. The model therefore admits more failures than
    the service can produce; every property proved holds for those too. */
module Remote {
  import opened Errors

  datatype Request =
    | CreateFromBytes(yaml: string)                                  // deploy a YAML document
    | ApplicationSummary(appId: string)                              // look up an application's status
    | RenameEntity(appId: string, entityId: string, name: string)    // rename an entity
    | ExpungeEntity(appId: string, entityId: string)                 // expunge an entity
    | ExpungeRelease(appId: string, entityId: string)                // empty POST to the expunge URL with release=true

  class Client {
    /** The answer to each request, by its position in the log. For a
        create the payload is the new entity's id, for a summary lookup the
        status string; the other requests' payloads are not used. */
    const answer: nat -> Result<string>
    /** Every request sent so far, oldest first. */
    var log: seq<Request>

    constructor(answer: nat -> Result<string>)
      ensures this.answer == answer && log == []
    {
      this.answer := answer;
      log := [];
    }

    /** Sends one request and returns the service's answer to it. */
    method Send(req: Request) returns (reply: Result<string>)
      modifies this
      ensures log == old(log) + [req]
      ensures reply == answer(|old(log)|)
    {
      reply := answer(|log|);
      log := log + [req];
    }
  }
}
