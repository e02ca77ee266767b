/** The shape of the responses SaveHandler writes through http.server:
    a status line, the headers it adds itself, and a body. */
module Http {
  import opened Bytes

  datatype Header = Header(name: string, value: string)

  /** What follows the headers: nothing, raw file bytes, a plain-text message
      sent as its ASCII bytes, or the JSON object
      {"success": true, "message": detail} / {"success": false, "error": detail}
      that the save endpoint returns. */
  datatype Payload =
    | NoBody
    | Raw(data: seq<byte>)
    | Text(text: string)
    | SaveStatus(success: bool, detail: string)

  datatype Response = Response(status: nat, headers: seq<Header>, body: Payload)
}
