/** How the pages classify a request that failed, and the texts they derive from it. */
module Http {
  import opened Js

  /** A failed request as a page's `catch` block sees it. */
  datatype Failure =
      /** An axios error that carries a response: its HTTP status and the body's
          `message` (empty when the body has none). */
    | Rejected(status: nat, message: string)
      /** An axios error for a request that got no response; `message` is the error's own text. */
    | Unreachable(message: string)
      /** Any other exception, such as one the page throws itself; empty when it has no message. */
    | Thrown(message: string)

  /** `error.response.data?.message || `Server error: ${error.response.status}``. */
  function ServerMessage(status: nat, message: string): (r: string)
    ensures message != "" ==> r == message
    ensures message == "" ==> r == "Server error: " + DecimalString(status)
    ensures r != ""
  {
    if message != "" then message else "Server error: " + DecimalString(status)
  }

  /** The fixed text shown when a request got no response. */
  const NetworkMessage: string := "Network Error: Could not connect to the server."

  /** The error text most pages compute in their `catch`: the server's message
      or status for a response, the fixed network text for a request without
      one, else the error's own message, else the page's `fallback`. */
  function Describe(e: Failure, fallback: string): (r: string)
    ensures e.Rejected? ==> r == ServerMessage(e.status, e.message)
    ensures e.Unreachable? ==> r == NetworkMessage
    ensures e.Thrown? && e.message != "" ==> r == e.message
    ensures e.Thrown? && e.message == "" ==> r == fallback
  {
    match e
    case Rejected(s, m) => ServerMessage(s, m)
    case Unreachable(_) => NetworkMessage
    case Thrown(m) => if m != "" then m else fallback
  }

  /** The same without the network case: a request without a response shows
      the error's own message (axios's `Network Error`), as the checkout page
      and the product form do. */
  function DescribeWithoutNetwork(e: Failure, fallback: string): (r: string)
    ensures e.Rejected? ==> r == ServerMessage(e.status, e.message)
    ensures !e.Rejected? && e.message != "" ==> r == e.message
    ensures !e.Rejected? && e.message == "" ==> r == fallback
  {
    if e.Rejected? then ServerMessage(e.status, e.message)
    else if e.message != "" then e.message
    else fallback
  }

  /** The value of the `Authorization` header built with `Bearer ${token}`: an
      absent token is rendered as the text `undefined`. */
  function BearerHeader(token: Option<string>): (h: string)
    ensures |h| >= 7 && h[..7] == "Bearer "
    ensures token.Some? ==> h[7..] == token.value
    ensures token.None? ==> h[7..] == "undefined"
  {
    "Bearer " + (if token.Some? then token.value else "undefined")
  }

  /** The server can read the token back from the header, except that a
      missing token cannot be told from the token `undefined`. */
  lemma BearerHeaderReadsBack(t1: Option<string>, t2: Option<string>)
    ensures BearerHeader(None) == BearerHeader(Some("undefined"))
    ensures BearerHeader(t1) == BearerHeader(t2) <==>
              t1 == t2 || (t1 == None && t2 == Some("undefined")) || (t1 == Some("undefined") && t2 == None)
  {
    var h1, h2 := BearerHeader(t1), BearerHeader(t2);
    if h1 == h2 {
      assert h1[7..] == h2[7..];
    }
  }
}
