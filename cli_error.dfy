/**
  The text the command line prints for an error before it exits.
*/
module CliError {
  import opened Text
  import opened Errors
  import opened Ints

  const CONFIG_NOT_FOUND: string :=
    "Error: " + "Configuration not found"
    + ".\nTo get started, obtain your API token from https://todoist.com/app/settings/integrations\nThen run: todorust init --api-token YOUR_TOKEN"

  /** The status codes that have a message of their own. */
  predicate KnownStatus(status: int)
  {
    status == 401 || status == 403 || status == 404 || status == 429
  }

  /** "<condition> (<code>). <advice>", the shape of the four special HTTP messages after "Error: ". */
  function Condition(condition: string, code: string, advice: string): string
  {
    condition + " " + code + ". " + advice
  }

  /** The part of an HTTP error's message after "Error: ". */
  function HttpDetail(status: u16): string
  {
    if KnownStatus(status) then KnownDetail(status) else OtherDetail(status)
  }

  function KnownDetail(status: u16): string
    requires KnownStatus(status)
  {
    if status == 401 then Condition("Unauthorized", "(401)", "Your API token might be invalid or expired.")
    else if status == 403 then Condition("Forbidden", "(403)", "You don't have permission to perform this action.")
    else if status == 404 then Condition("Not Found", "(404)", "The requested resource was not found.")
    else Condition("Too Many Requests", "(429)", "Todoist API rate limit exceeded. Please wait a moment.")
  }

  function OtherDetail(status: u16): string
  {
    "Todoist API returned " + "HTTP " + Decimal(status) + "."
  }

  function HttpMessage(status: u16): string
  {
    "Error: " + HttpDetail(status)
  }

  /** The prefix put before the message of the variants that carry one. */
  function Prefix(e: TodoError): string
    requires !e.Http? && !e.ConfigNotFound?
  {
    match e
    case Api(_) => "Todoist API Error: "
    case Config(_) => "Configuration Error: "
    case InvalidInput(_) => "Invalid Input: "
    case Serialize(_) => "Data Processing Error: "
    case Io(_) => "System IO Error: "
  }

  /** `get_error_message`: the user-facing text of an error. The body of an HTTP error is not shown. */
  function ErrorMessage(e: TodoError): (r: string)
    ensures e.Http? || e.ConfigNotFound? ==> |r| >= 7 && r[..7] == "Error: "
    ensures !e.Http? && !e.ConfigNotFound? ==> |e.msg| < |r| && r[|r| - |e.msg|..] == e.msg
  {
    match e
    case ConfigNotFound => CONFIG_NOT_FOUND
    case Http(status, _) => HttpMessage(status)
    case _ => Prefix(e) + e.msg
  }

  /** The error with the parts the message does not show (the HTTP body) blanked out. */
  function Shown(e: TodoError): TodoError
  {
    if e.Http? then Http(e.status, "") else e
  }

  /** A string contains whatever sits between two of its parts. */
  lemma ContainsMiddle(p: string, needle: string, q: string)
    ensures Contains(p + needle + q, needle)
  {
    var s := p + needle + q;
    assert s[|p|..|p| + |needle|] == needle;
    assert OccursAt(s, needle, |p|);
  }

  /** A special HTTP message names its condition and, in parentheses, its code. */
  lemma ConditionNamed(condition: string, code: string, advice: string)
    ensures Contains("Error: " + Condition(condition, code, advice), condition)
    ensures Contains("Error: " + Condition(condition, code, advice), code)
  {
    var m := "Error: " + Condition(condition, code, advice);
    assert m == "Error: " + condition + (" " + code + ". " + advice);
    ContainsMiddle("Error: ", condition, " " + code + ". " + advice);
    assert m == "Error: " + condition + " " + code + (". " + advice);
    ContainsMiddle("Error: " + condition + " ", code, ". " + advice);
  }

  /** The four special status codes get their own messages, naming the condition and the code. */
  lemma KnownStatusMessages(body: string)
    ensures Contains(ErrorMessage(Http(401, body)), "Unauthorized") && Contains(ErrorMessage(Http(401, body)), "(401)")
    ensures Contains(ErrorMessage(Http(403, body)), "Forbidden") && Contains(ErrorMessage(Http(403, body)), "(403)")
    ensures Contains(ErrorMessage(Http(404, body)), "Not Found") && Contains(ErrorMessage(Http(404, body)), "(404)")
    ensures Contains(ErrorMessage(Http(429, body)), "Too Many Requests") && Contains(ErrorMessage(Http(429, body)), "(429)")
  {
    ConditionNamed("Unauthorized", "(401)", "Your API token might be invalid or expired.");
    ConditionNamed("Forbidden", "(403)", "You don't have permission to perform this action.");
    ConditionNamed("Not Found", "(404)", "The requested resource was not found.");
    ConditionNamed("Too Many Requests", "(429)", "Todoist API rate limit exceeded. Please wait a moment.");
  }

  /** The message of a status without one of its own, before the body is set aside. */
  lemma OtherHttpMessage(status: u16)
    requires !KnownStatus(status)
    ensures HttpMessage(status) == "Error: " + "Todoist API returned " + "HTTP " + Decimal(status) + "."
    ensures Contains(HttpMessage(status), "HTTP " + Decimal(status))
  {
    var d := Decimal(status);
    var p := "Error: " + "Todoist API returned ";
    assert HttpDetail(status) == OtherDetail(status);
    assert HttpMessage(status) == p + ("HTTP " + d) + ".";
    ContainsMiddle(p, "HTTP " + d, ".");
  }

  /** Any other status `n` is reported as "Error: Todoist API returned HTTP n.", whatever the body. */
  lemma OtherStatusMessage(status: u16, body: string)
    requires !KnownStatus(status)
    ensures ErrorMessage(Http(status, body)) == "Error: " + "Todoist API returned " + "HTTP " + Decimal(status) + "."
    ensures Contains(ErrorMessage(Http(status, body)), "HTTP " + Decimal(status))
  {
    OtherHttpMessage(status);
    assert ErrorMessage(Http(status, body)) == HttpMessage(status);
  }

  /** The variants that carry a message print a fixed prefix followed by that message. */
  lemma PrefixedMessage(e: TodoError)
    requires !e.Http? && !e.ConfigNotFound?
    ensures ErrorMessage(e) == Prefix(e) + e.msg
    ensures e.Api? ==> StartsWith(ErrorMessage(e), "Todoist API Error: ")
    ensures e.Config? ==> StartsWith(ErrorMessage(e), "Configuration Error: ")
    ensures e.InvalidInput? ==> StartsWith(ErrorMessage(e), "Invalid Input: ")
    ensures e.Serialize? ==> StartsWith(ErrorMessage(e), "Data Processing Error: ")
    ensures e.Io? ==> StartsWith(ErrorMessage(e), "System IO Error: ")
  {
    assert (Prefix(e) + e.msg)[..|Prefix(e)|] == Prefix(e);
  }

  /** The missing-configuration message names the condition. */
  lemma ConfigNotFoundMessage()
    ensures Contains(ErrorMessage(ConfigNotFound), "Configuration not found")
  {
    ContainsMiddle("Error: ", "Configuration not found",
      ".\nTo get started, obtain your API token from https://todoist.com/app/settings/integrations\nThen run: todorust init --api-token YOUR_TOKEN");
  }

  /** The third character of an HTTP detail tells the five kinds of message apart; none starts with 'C'. */
  lemma HttpDetailShape(status: u16)
    ensures |HttpDetail(status)| > 2 && HttpDetail(status)[0] != 'C'
    ensures HttpDetail(status)[2] == (if status == 401 then 'a' else if status == 403 then 'r'
      else if status == 404 then 't' else if status == 429 then 'o' else 'd')
  {
    if KnownStatus(status) {
      KnownDetailShape(status);
    } else {
      var d := OtherDetail(status);
      assert d[0] == "Todoist API returned "[0] && d[2] == "Todoist API returned "[2];
    }
  }

  lemma KnownDetailShape(status: u16)
    requires KnownStatus(status)
    ensures |KnownDetail(status)| > 2 && KnownDetail(status)[0] != 'C'
    ensures KnownDetail(status)[2] == (if status == 401 then 'a' else if status == 403 then 'r'
      else if status == 404 then 't' else 'o')
  {
    var d := KnownDetail(status);
    if status == 401 {
      assert d[0] == "Unauthorized"[0] && d[2] == "Unauthorized"[2];
    } else if status == 403 {
      assert d[0] == "Forbidden"[0] && d[2] == "Forbidden"[2];
    } else if status == 404 {
      assert d[0] == "Not Found"[0] && d[2] == "Not Found"[2];
    } else {
      assert d[0] == "Too Many Requests"[0] && d[2] == "Too Many Requests"[2];
    }
  }

  /** Different status codes give different messages. */
  lemma HttpMessageInjective(a: u16, b: u16)
    requires HttpMessage(a) == HttpMessage(b)
    ensures a == b
  {
    var da, db := HttpDetail(a), HttpDetail(b);
    assert da == HttpMessage(a)[7..] && db == HttpMessage(b)[7..];
    HttpDetailShape(a);
    HttpDetailShape(b);
    if !KnownStatus(a) {
      var p := "Todoist API returned " + "HTTP ";
      assert da == p + Decimal(a) + "." && db == p + Decimal(b) + ".";
      assert da[|p|..|da| - 1] == Decimal(a);
      assert db[|p|..|db| - 1] == Decimal(b);
      DecimalInjective(a, b);
    }
  }

  /** The first character separates "Error: ..." messages from prefixed ones; the eighth separates the two "Error: " kinds. */
  lemma LeadingCharacters(e: TodoError)
    ensures |ErrorMessage(e)| > 7
    ensures ErrorMessage(e)[0] == 'E' <==> e.Http? || e.ConfigNotFound?
    ensures e.Http? || e.ConfigNotFound? ==> (ErrorMessage(e)[7] == 'C' <==> e.ConfigNotFound?)
  {
    if e.Http? {
      HttpDetailShape(e.status);
      assert ErrorMessage(e)[7] == HttpDetail(e.status)[0];
    } else if e.ConfigNotFound? {
      assert CONFIG_NOT_FOUND[7] == 'C';
    }
  }

  /**
    The message identifies the error: two errors with the same message are the
    same error, up to the HTTP body, which is never shown.
  */
  lemma MessageIdentifiesError(e1: TodoError, e2: TodoError)
    requires ErrorMessage(e1) == ErrorMessage(e2)
    ensures Shown(e1) == Shown(e2)
  {
    var m := ErrorMessage(e1);
    LeadingCharacters(e1);
    LeadingCharacters(e2);
    if e1.Http? && e2.Http? {
      HttpMessageInjective(e1.status, e2.status);
    } else if !e1.Http? && !e1.ConfigNotFound? && !e2.Http? && !e2.ConfigNotFound? {
      var p1, p2 := Prefix(e1), Prefix(e2);
      assert m[0] == p1[0] && m[0] == p2[0];
      assert e1.Io? || e2.Io? || m[1] == p1[1] == p2[1];
      assert p1 == p2;
      assert e1.msg == m[|p1|..] == e2.msg;
    }
  }
}
