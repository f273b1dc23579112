/** The JSON-RPC 2.0 request envelope the client sends (section 4 of the
    JSON-RPC 2.0 specification, "Request object") and the injection of the
    access token into the parameters of a private call. */
module Rpc {
  import opened Wrappers
  import opened JsonModel

  const Version: string := "2.0"
  const AccessTokenKey: string := "access_token"

  /** One outbound request: the id the session gave it, the method name and
      the parameters. */
  datatype Envelope = Envelope(id: int, rpcMethod: string, params: Json)

  /** The request object as it is put on the wire. */
  function Encode(e: Envelope): (j: Json)
    ensures Contains(j, "jsonrpc") && Get(j, "jsonrpc") == Str(Version)
    ensures Contains(j, "id") && Get(j, "id") == Int(e.id)
  {
    Obj(map["jsonrpc" := Str(Version), "id" := Int(e.id), "method" := Str(e.rpcMethod), "params" := e.params])
  }

  /** Reads a request object back: exactly the four members, a version of
      "2.0", an integer id and a string method. */
  function Decode(j: Json): Option<Envelope> {
    if && j.Obj?
       && j.fields.Keys == {"jsonrpc", "id", "method", "params"}
       && j.fields["jsonrpc"] == Str(Version)
       && j.fields["id"].Int?
       && j.fields["method"].Str?
    then Some(Envelope(j.fields["id"].i, j.fields["method"].s, j.fields["params"]))
    else None
  }

  /** Every envelope the client encodes decodes to itself. */
  lemma DecodeEncode(e: Envelope)
    ensures Decode(Encode(e)) == Some(e)
  {
  }

  /** Decoding loses nothing: a request object that decodes is exactly the
      encoding of what it decodes to. */
  lemma EncodeDecode(j: Json, e: Envelope)
    requires Decode(j) == Some(e)
    ensures Encode(e) == j
  {
  }

  /** The parameters of a private request: the caller's parameters with
      `access_token` set to the session's token. A null value (the empty
      parameters of an unfiltered order query) becomes an object. */
  function WithToken(params: Json, token: string): (r: Json)
    requires params.Obj? || params.Null?
    ensures r.Obj? && r.fields.Keys == Members(params).Keys + {AccessTokenKey}
    ensures r.fields[AccessTokenKey] == Str(token)
    ensures forall k :: k in Members(params) && k != AccessTokenKey ==> r.fields[k] == Members(params)[k]
  {
    Obj(Members(params)[AccessTokenKey := Str(token)])
  }
}
