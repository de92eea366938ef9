/** The status payload sent to the native side when a tokenized checkout completes. */
module CheckoutResponses {

  datatype Status = Failure | Success

  /** The enum's `ToString()`. */
  function StatusName(s: Status): string
  {
    match s
    case Success => "Success"
    case Failure => "Failure"
  }

  /** The status is given at construction and, the value being immutable, never changes. */
  datatype AndroidPayCheckoutResponse = AndroidPayCheckoutResponse(status: Status) {

    /** The JSON object `{"status": <name>}`: exactly one key. */
    function ToJson(): (json: map<string, string>)
      ensures json.Keys == {"status"}
      ensures json["status"] == StatusName(status)
    {
      map["status" := StatusName(status)]
    }
  }

  /** Each status serialises to its own name. */
  lemma StatusSerialisation()
    ensures AndroidPayCheckoutResponse(Success).ToJson() == map["status" := "Success"]
    ensures AndroidPayCheckoutResponse(Failure).ToJson() == map["status" := "Failure"]
  {
  }

  /** Serialisation is injective: distinct statuses give distinct payloads. */
  lemma ToJsonInjective(a: AndroidPayCheckoutResponse, b: AndroidPayCheckoutResponse)
    ensures a.ToJson() == b.ToJson() <==> a == b
  {
  }
}
