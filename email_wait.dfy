/**
 * `waitForEmail` of vendor_story_3_needs_attention.cjs: the runner first tries to reset the
 * server's email flag to false (a failure is ignored), then polls GET /email-status every two
 * seconds until the flag reads true.
 *
 * As for the signal wait, what other parties do is a finite sequence `env`, one action before each
 * poll, and a wait that outlasts `env` ends with `None`.
 */
module EmailWait {
  import opened Wrappers
  import opened CoordinationServer

  /** What happens before one poll: nothing, a POST /email-status from the interface, or the server
      not answering (the poll fails and so would any POST). */
  datatype EmailEnv = Quiet | Posted(body: EmailBody) | Down

  /** The POST that reports the email as sent. */
  const SentPost := Posted(EmailBody(Some(true)))

  /** The wait from poll `p` on: the server's flag it leaves and the poll that read it true. */
  function EmailWaitFrom(sent: bool, env: seq<EmailEnv>, p: nat): (bool, Option<nat>)
    decreases |env| - p
  {
    if p >= |env| then (sent, None)
    else
      match env[p]
      case Down => EmailWaitFrom(sent, env, p + 1)
      case Quiet => if sent then (sent, Some(p)) else EmailWaitFrom(sent, env, p + 1)
      case Posted(b) =>
        var s := EmailAfterPost(sent, b);
        if s then (s, Some(p)) else EmailWaitFrom(s, env, p + 1)
  }

  /** The flag the polling starts from: false when the runner's reset reached the server. */
  function StartFlag(sent: bool, resetDelivered: bool): (r: bool)
    ensures resetDelivered ==> !r
    ensures !resetDelivered ==> r == sent
  {
    if resetDelivered then EmailAfterPost(sent, EmailBody(Some(false))) else sent
  }

  /** The wait only returns on a poll that read the flag true, within `env`. */
  lemma {:induction false} ReturnsOnlyWhenSent(sent: bool, env: seq<EmailEnv>, p: nat)
    ensures var (s, r) := EmailWaitFrom(sent, env, p);
      r.Some? ==> s && p <= r.value < |env| && env[r.value] != Down
    decreases |env| - p
  {
    if p < |env| {
      var s := if env[p].Posted? then EmailAfterPost(sent, env[p].body) else sent;
      if env[p].Down? || !s {
        ReturnsOnlyWhenSent(s, env, p + 1);
      }
    }
  }

  /** From a cleared flag, the wait returns only after the interface posted that the email was
      sent: a true left over from before the reset is not taken. */
  lemma {:induction false} OnlyFreshSendTaken(sent: bool, env: seq<EmailEnv>, p: nat)
    requires !sent
    ensures var r := EmailWaitFrom(sent, env, p).1;
      r.Some? ==> exists q :: p <= q <= r.value && q < |env| && env[q] == SentPost
    decreases |env| - p
  {
    if p < |env| {
      var r := EmailWaitFrom(sent, env, p).1;
      if env[p] == SentPost {
        if r.Some? {
          ReturnsOnlyWhenSent(sent, env, p);
          assert p <= p <= r.value && p < |env| && env[p] == SentPost;
        }
      } else {
        var s := if env[p].Posted? then EmailAfterPost(sent, env[p].body) else sent;
        assert !s;
        OnlyFreshSendTaken(s, env, p + 1);
      }
    }
  }

  /** A POST reporting the email sent, answered by the server, ends the wait at that poll at the
      latest. */
  lemma {:induction false} SendTaken(sent: bool, env: seq<EmailEnv>, p: nat, q: nat)
    requires p <= q < |env| && env[q] == SentPost
    ensures var r := EmailWaitFrom(sent, env, p).1;
      r.Some? && r.value <= q
    decreases q - p
  {
    if p < q {
      var s := if env[p].Posted? then EmailAfterPost(sent, env[p].body) else sent;
      if env[p].Down? || !s {
        SendTaken(s, env, p + 1, q);
      }
    }
  }

  /** When the runner's reset does not reach the server, a flag still true from an earlier send
      ends the wait at the first answered poll, before anyone sent this email. */
  lemma StaleSendTakenWithoutReset(env: seq<EmailEnv>)
    requires |env| > 0 && env[0] == Quiet
    ensures EmailWaitFrom(StartFlag(true, false), env, 0) == (true, Some(0))
  {
  }

  /** One action before a poll, applied to the server. */
  method DeliverEmail(srv: Server, ev: EmailEnv)
    modifies srv`sent
    ensures ev.Posted? ==> srv.sent == EmailAfterPost(old(srv.sent), ev.body)
    ensures !ev.Posted? ==> srv.sent == old(srv.sent)
  {
    if ev.Posted? {
      srv.EmailStatusPost(ev.body);
    }
  }

  /** `waitForEmail`: the reset (when it reaches the server), then the polling loop; the result is
      the poll that read the flag true. */
  method WaitForEmail(srv: Server, resetDelivered: bool, env: seq<EmailEnv>) returns (taken: Option<nat>)
    modifies srv`sent
    ensures (srv.sent, taken) == EmailWaitFrom(StartFlag(old(srv.sent), resetDelivered), env, 0)
  {
    if resetDelivered {
      srv.EmailStatusPost(EmailBody(Some(false)));
    }
    ghost var outcome := EmailWaitFrom(srv.sent, env, 0);
    var p := 0;
    while p < |env|
      invariant p <= |env|
      invariant EmailWaitFrom(srv.sent, env, p) == outcome
      decreases |env| - p
    {
      DeliverEmail(srv, env[p]);
      if !env[p].Down? {
        var sent := srv.EmailStatusGet();
        if sent {
          return Some(p);
        }
      }
      p := p + 1;
    }
    return None;
  }
}
