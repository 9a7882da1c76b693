/** The two mail transports as App.SendReport sees them (internal/mailservice): the
    checks their constructors make, and a recording stand-in for the network send. */
module Mail {
  import opened Wrappers

  datatype Transport = Mailgun | Smtp

  /** One call of a transport's Send: who from, the subject, the HTML body, the
      recipient, and whether the service accepted it. */
  datatype Delivery = Delivery(transport: Transport, from: string, subject: string, body: string, to: string, accepted: bool)

  /** The network side of every Send. `accepts(n)` is the answer to the n-th call since
      the mailer was made; `sent` records every call in order. */
  class Mailer {
    const accepts: nat -> bool
    var sent: seq<Delivery>

    constructor (accepts: nat -> bool)
      ensures this.accepts == accepts && sent == []
    {
      this.accepts := accepts;
      sent := [];
    }

    method Send(transport: Transport, from: string, subject: string, body: string, to: string) returns (ok: bool)
      modifies this
      ensures ok == accepts(|old(sent)|)
      ensures sent == old(sent) + [Delivery(transport, from, subject, body, to, ok)]
    {
      ok := accepts(|sent|);
      sent := sent + [Delivery(transport, from, subject, body, to, ok)];
    }
  }

  /** NewMailgunService succeeds iff both the domain and the key are set. */
  predicate MailgunServiceAccepts(domain: string, apiKey: string) {
    !(domain == "" || apiKey == "")
  }

  /** NewSMTPService's check: login, password and address set, and the address splits
      (`net.SplitHostPort`, given as `split`) into a non-empty host and port. */
  predicate SmtpServiceAccepts(login: string, password: string, server: string,
                               split: string -> Option<(string, string)>) {
    login != "" && password != "" && server != "" &&
    split(server).Some? && split(server).value.0 != "" && split(server).value.1 != ""
  }

  function DigitChar(d: nat): char
    requires d < 10
  {
    "0123456789"[d]
  }

  function DigitValue(c: char): int {
    c as int - '0' as int
  }

  /** `%d` of a non-negative integer. */
  function NatToDecimal(n: nat): (s: string)
    ensures |s| > 0
    ensures forall i :: 0 <= i < |s| ==> '0' <= s[i] <= '9'
  {
    if n < 10 then [DigitChar(n)] else NatToDecimal(n / 10) + [DigitChar(n % 10)]
  }

  /** `%d` of an integer. */
  function IntToDecimal(n: int): (s: string)
    ensures |s| > 0
  {
    if n < 0 then "-" + NatToDecimal(-n) else NatToDecimal(n)
  }

  /** Reading digits back; the inverse of NatToDecimal. */
  function ParseDecimal(s: string): int {
    if s == [] then 0 else ParseDecimal(s[..|s| - 1]) * 10 + DigitValue(s[|s| - 1])
  }

  lemma {:induction false} DecimalRoundTrip(n: nat)
    ensures ParseDecimal(NatToDecimal(n)) == n
  {
    if n >= 10 {
      DecimalRoundTrip(n / 10);
      var s := NatToDecimal(n);
      assert s[..|s| - 1] == NatToDecimal(n / 10);
    }
  }

  /** The address NewSMTPService gets: `fmt.Sprintf("%s:%d", server, port)`. */
  function SmtpAddress(server: string, port: int): (a: string)
    ensures |a| > |server| + 1
    ensures a[..|server| + 1] == server + ":"
  {
    server + ":" + IntToDecimal(port)
  }
}
