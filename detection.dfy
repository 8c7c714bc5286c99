/** The address resolver: which strategy finds the host's current address, and
    the ordered chain of public detectors tried one after another until one of
    them yields a value. Running `dig`, the shell or an HTTP request is outside
    the model: what each of those gave is an input. */
module Detection {
  import opened Strings

  /** What running one detector gave: it raised (timeout, HTTP error status,
      missing `dig`, malformed JSON, ...) or it returned text. For an HTTP
      detector the text is what its extractor returned; an extractor that
      found no field is `Returned("")`, which is just as falsy. */
  datatype Attempt = Raised | Returned(text: string)

  /** How a detector turns its text into a candidate address. */
  datatype Rule =
    | QuotedTxt(limit: Option<nat>)  // a TXT answer: strip whitespace, then '"', optional length cap
    | PlainAnswer                    // an A answer: strip whitespace
    | Extracted                      // an HTTP echo service: the extracted value as it is

  datatype Step = Step(source: string, rule: Rule)

  const Quote: set<char> := {'"'}

  /** The IPv4 chain of `get_public_ip`, in order. */
  const V4Chain: seq<Step> := [
    Step("whoami.cloudflare TXT via DNS_SERVER", QuotedTxt(Some(15))),
    Step("myip.opendns.com via resolver1.opendns.com", PlainAnswer),
    Step("https://ipinfo.io", Extracted),
    Step("https://api.ipify.org", Extracted),
    Step("https://icanhazip.com", Extracted),
    Step("https://checkip.amazonaws.com", Extracted),
    Step("https://httpbin.org/ip", Extracted),
    Step("https://api.myip.com", Extracted)
  ]

  /** The IPv6 chain of `get_public_ip`, in order. */
  const V6Chain: seq<Step> := [
    Step("whoami.cloudflare TXT via 2606:4700:4700::1111", QuotedTxt(None)),
    Step("https://ifconfig.co", Extracted),
    Step("https://api6.ipify.org", Extracted),
    Step("https://icanhazip.com", Extracted),
    Step("https://checkip.amazonaws.com", Extracted),
    Step("https://httpbin.org/ip", Extracted),
    Step("https://api.myip.com", Extracted)
  ]

  /** The chain for a record type; any type other than A and AAAA has none. */
  function ChainFor(rrtype: string): (steps: seq<Step>)
    ensures steps == [] <==> rrtype != "A" && rrtype != "AAAA"
  {
    if rrtype == "A" then V4Chain else if rrtype == "AAAA" then V6Chain else []
  }

  /** The address a detector's text yields, if it passes the detector's rule:
      a TXT answer stripped of whitespace and then of quotes, accepted when
      non-empty and within the cap; an A answer stripped of whitespace,
      accepted when non-empty; an extracted HTTP value, accepted when
      non-empty. */
  function Candidate(rule: Rule, text: string): (ip: Option<string>)
    ensures ip.Some? ==> ip.value != []
    ensures ip.Some? && rule.QuotedTxt? && rule.limit.Some? ==> |ip.value| <= rule.limit.value
  {
    match rule
    case QuotedTxt(limit) =>
      var s := Strip(Strip(text, Whitespace), Quote);
      if s != [] && (limit.None? || |s| <= limit.value) then Some(s) else None
    case PlainAnswer =>
      var s := Strip(text, Whitespace);
      if s != [] then Some(s) else None
    case Extracted =>
      if text != [] then Some(text) else None
  }

  /** Each rule accepts exactly the non-empty candidates it should: a TXT
      answer stripped of whitespace and then of quotes, within the cap if
      there is one; an A answer stripped of whitespace; an extracted HTTP
      value as it is. */
  lemma CandidateRules(rule: Rule, text: string)
    ensures var ip := Candidate(rule, text);
            && (rule.QuotedTxt? ==>
                  var s := Strip(Strip(text, Whitespace), Quote);
                  && (ip.Some? <==> s != [] && (rule.limit.None? || |s| <= rule.limit.value))
                  && (ip.Some? ==> ip.value == s))
            && (rule.PlainAnswer? ==>
                  && (ip.Some? <==> Strip(text, Whitespace) != [])
                  && (ip.Some? ==> ip.value == Strip(text, Whitespace)))
            && (rule.Extracted? ==> (ip.Some? <==> text != []) && (ip.Some? ==> ip.value == text))
  {
  }

  /** A detector that raised yields nothing; its error is not propagated. */
  function Accepted(step: Step, outcome: Attempt): (ip: Option<string>)
    ensures outcome.Raised? ==> ip.None?
    ensures outcome.Returned? ==> ip == Candidate(step.rule, outcome.text)
    ensures ip.Some? ==> ip.value != []
  {
    match outcome
    case Raised => None
    case Returned(text) => Candidate(step.rule, text)
  }

  /** The chain's answer and how many detectors it ran. */
  datatype ChainResult = ChainResult(ip: Option<string>, tried: nat)

  /** The chain of responsibility over what each detector would yield if it
      were run: the first value present wins and the later ones are never
      looked at; when there is none, every detector has run. */
  function FirstSome(answers: seq<Option<string>>): (d: ChainResult)
    ensures d.tried <= |answers|
    ensures d.ip.Some? ==> 0 < d.tried && answers[d.tried - 1] == d.ip
    ensures forall k :: 0 <= k < d.tried - 1 ==> answers[k].None?
    ensures d.ip.None? <==> forall k :: 0 <= k < |answers| ==> answers[k].None?
    ensures d.ip.None? ==> d.tried == |answers|
  {
    if answers == [] then ChainResult(None, 0)
    else if answers[0].Some? then ChainResult(answers[0], 1)
    else
      var rest := FirstSome(answers[1..]);
      ChainResult(rest.ip, rest.tried + 1)
  }

  /** What each detector of the chain yields for its outcome. */
  function Yields(steps: seq<Step>, probes: seq<Attempt>): (ys: seq<Option<string>>)
    requires |probes| == |steps|
    ensures |ys| == |steps|
    ensures forall k :: 0 <= k < |steps| ==> ys[k] == Accepted(steps[k], probes[k])
  {
    seq(|steps|, k requires 0 <= k < |steps| => Accepted(steps[k], probes[k]))
  }

  /** `get_public_ip`'s chain: the first detector, in order, that yields an
      address wins, and the detectors after it are not run; when none yields
      one, the chain fails after running all of them. `probes[k]` is what the
      k-th detector gives when it is run. */
  function FirstSuccess(steps: seq<Step>, probes: seq<Attempt>): (d: ChainResult)
    requires |probes| == |steps|
    ensures d.tried <= |steps|
    ensures d.ip.Some? ==> 0 < d.tried && Accepted(steps[d.tried - 1], probes[d.tried - 1]) == d.ip
    ensures forall k :: 0 <= k < d.tried - 1 ==> Accepted(steps[k], probes[k]).None?
    ensures d.ip.None? <==> forall k :: 0 <= k < |steps| ==> Accepted(steps[k], probes[k]).None?
    ensures d.ip.None? ==> d.tried == |steps|
  {
    FirstSome(Yields(steps, probes))
  }

  /** Given a fake chain in which detectors `0..k-1` yield nothing and detector
      `k` yields `v`, the chain answers `v` after running exactly `k + 1`
      detectors. */
  lemma {:induction false} SucceedsAt(steps: seq<Step>, probes: seq<Attempt>, k: nat, v: string)
    requires |probes| == |steps| && k < |steps|
    requires forall j :: 0 <= j < k ==> Accepted(steps[j], probes[j]).None?
    requires Accepted(steps[k], probes[k]) == Some(v)
    ensures FirstSuccess(steps, probes) == ChainResult(Some(v), k + 1)
  {
    var d := FirstSuccess(steps, probes);
    assert d.ip.Some?;
  }

  /** What the detectors after the winning one would have given makes no
      difference: the chain never runs them. */
  lemma UntriedIrrelevant(steps: seq<Step>, probes: seq<Attempt>, other: seq<Attempt>)
    requires |probes| == |steps| && |other| == |steps|
    requires forall k :: 0 <= k < FirstSuccess(steps, probes).tried ==> other[k] == probes[k]
    ensures FirstSuccess(steps, other) == FirstSuccess(steps, probes)
  {
    var d := FirstSuccess(steps, probes);
    if d.ip.Some? {
      SucceedsAt(steps, other, d.tried - 1, d.ip.value);
    } else {
      assert Yields(steps, other) == Yields(steps, probes);
    }
  }

  /** A first detector that yields nothing hands the decision to the rest of
      the chain. */
  lemma PassesOn(steps: seq<Step>, probes: seq<Attempt>)
    requires |probes| == |steps| && steps != []
    requires Accepted(steps[0], probes[0]).None?
    ensures var e := FirstSuccess(steps[1..], probes[1..]);
            FirstSuccess(steps, probes) == ChainResult(e.ip, e.tried + 1)
  {
    assert Yields(steps, probes)[1..] == Yields(steps[1..], probes[1..]);
  }

  /** The IPv4 DNS detector rejects a stripped answer longer than 15
      characters; the chain then goes on to OpenDNS as if it had failed. */
  lemma LongTxtAnswerFallsThrough(text: string, rest: seq<Attempt>)
    requires |rest| == |V4Chain| - 1
    requires |Strip(Strip(text, Whitespace), Quote)| > 15
    ensures var d := FirstSuccess(V4Chain, [Returned(text)] + rest);
            var e := FirstSuccess(V4Chain[1..], rest);
            d == ChainResult(e.ip, e.tried + 1)
  {
    var probes := [Returned(text)] + rest;
    var s := Strip(Strip(text, Whitespace), Quote);
    assert V4Chain[0].rule == QuotedTxt(Some(15));
    assert Candidate(QuotedTxt(Some(15)), text) == None;
    assert probes[1..] == rest;
    PassesOn(V4Chain, probes);
  }

  /** A chain that opens with a DNS detector limited to 15 characters ends at
      that detector when its stripped answer is non-empty and short enough. */
  lemma ShortQuotedAnswerLeads(steps: seq<Step>, text: string, rest: seq<Attempt>)
    requires steps != [] && |rest| == |steps| - 1 && steps[0].rule == QuotedTxt(Some(15))
    requires 0 < |Strip(Strip(text, Whitespace), Quote)| <= 15
    ensures FirstSuccess(steps, [Returned(text)] + rest)
            == ChainResult(Some(Strip(Strip(text, Whitespace), Quote)), 1)
  {
    var probes := [Returned(text)] + rest;
    var s := Strip(Strip(text, Whitespace), Quote);
    CandidateRules(steps[0].rule, text);
    assert Accepted(steps[0], probes[0]) == Some(s);
    SucceedsAt(steps, probes, 0, s);
  }

  /** A non-empty stripped answer of at most 15 characters from the IPv4 DNS
      detector is the result, and no other detector runs. */
  lemma ShortTxtAnswerWins(text: string, rest: seq<Attempt>)
    requires |rest| == |V4Chain| - 1
    requires 0 < |Strip(Strip(text, Whitespace), Quote)| <= 15
    ensures FirstSuccess(V4Chain, [Returned(text)] + rest)
            == ChainResult(Some(Strip(Strip(text, Whitespace), Quote)), 1)
  {
    assert V4Chain[0].rule == QuotedTxt(Some(15));
    ShortQuotedAnswerLeads(V4Chain, text, rest);
  }

  /** A chain that opens with an uncapped DNS TXT detector ends there when its
      stripped answer is non-empty, however long it is. */
  lemma QuotedAnswerLeads(steps: seq<Step>, text: string, rest: seq<Attempt>)
    requires steps != [] && |rest| == |steps| - 1 && steps[0].rule == QuotedTxt(None)
    requires Strip(Strip(text, Whitespace), Quote) != []
    ensures FirstSuccess(steps, [Returned(text)] + rest)
            == ChainResult(Some(Strip(Strip(text, Whitespace), Quote)), 1)
  {
    var probes := [Returned(text)] + rest;
    var s := Strip(Strip(text, Whitespace), Quote);
    CandidateRules(steps[0].rule, text);
    assert Accepted(steps[0], probes[0]) == Some(s);
    SucceedsAt(steps, probes, 0, s);
  }

  /** Any non-empty stripped answer of the IPv6 DNS detector is the result,
      after a single detector: unlike IPv4, there is no length cap. */
  lemma V6TxtAnswerWins(text: string, rest: seq<Attempt>)
    requires |rest| == |V6Chain| - 1
    requires Strip(Strip(text, Whitespace), Quote) != []
    ensures FirstSuccess(V6Chain, [Returned(text)] + rest)
            == ChainResult(Some(Strip(Strip(text, Whitespace), Quote)), 1)
  {
    assert V6Chain[0].rule == QuotedTxt(None);
    QuotedAnswerLeads(V6Chain, text, rest);
  }

  /** A chain that opens with a plain DNS detector ends there when its
      answer is not blank. */
  lemma PlainAnswerLeads(steps: seq<Step>, text: string, rest: seq<Attempt>)
    requires steps != [] && |rest| == |steps| - 1 && steps[0].rule == PlainAnswer
    requires Strip(text, Whitespace) != []
    ensures FirstSuccess(steps, [Returned(text)] + rest) == ChainResult(Some(Strip(text, Whitespace)), 1)
  {
    var probes := [Returned(text)] + rest;
    CandidateRules(steps[0].rule, text);
    assert Accepted(steps[0], probes[0]) == Some(Strip(text, Whitespace));
    SucceedsAt(steps, probes, 0, Strip(text, Whitespace));
  }

  /** When the Cloudflare TXT detector yields nothing, any non-blank OpenDNS
      answer is the result, stripped but otherwise unfiltered, after two
      detectors. */
  lemma OpenDnsAnswerWins(txt: Attempt, text: string, rest: seq<Attempt>)
    requires |rest| == |V4Chain| - 2
    requires Accepted(V4Chain[0], txt).None?
    requires Strip(text, Whitespace) != []
    ensures FirstSuccess(V4Chain, [txt] + ([Returned(text)] + rest))
            == ChainResult(Some(Strip(text, Whitespace)), 2)
  {
    var probes := [txt] + ([Returned(text)] + rest);
    assert probes[0] == txt && probes[1..] == [Returned(text)] + rest;
    PassesOn(V4Chain, probes);
    assert V4Chain[1..][0].rule == PlainAnswer;
    PlainAnswerLeads(V4Chain[1..], text, rest);
  }

  /** `get_public_ip`: runs the chain for `rrtype` one detector at a time and
      returns as soon as one yields an address. */
  method PublicIp(rrtype: string, probes: seq<Attempt>) returns (ip: Option<string>, tried: nat)
    requires |probes| == |ChainFor(rrtype)|
    ensures ChainResult(ip, tried) == FirstSuccess(ChainFor(rrtype), probes)
  {
    ip, tried := RunChain(ChainFor(rrtype), probes);
  }

  method RunChain(steps: seq<Step>, probes: seq<Attempt>) returns (ip: Option<string>, tried: nat)
    requires |probes| == |steps|
    ensures ChainResult(ip, tried) == FirstSuccess(steps, probes)
  {
    tried := 0;
    while tried < |steps|
      invariant tried <= |steps|
      invariant forall k :: 0 <= k < tried ==> Accepted(steps[k], probes[k]).None?
    {
      var candidate := Accepted(steps[tried], probes[tried]);
      if candidate.Some? {
        SucceedsAt(steps, probes, tried, candidate.value);
        return candidate, tried + 1;
      }
      tried := tried + 1;
    }
    return None, tried;
  }

  /** `get_custom_ip`: the command's stripped output, unless it is blank or
      the command raised. */
  function CustomIp(outcome: Attempt): (ip: Option<string>)
    ensures ip.Some? <==> outcome.Returned? && Strip(outcome.text, Whitespace) != []
    ensures ip.Some? ==> ip.value == Strip(outcome.text, Whitespace)
  {
    match outcome
    case Raised => None
    case Returned(text) =>
      var s := Strip(text, Whitespace);
      if s != [] then Some(s) else None
  }

  /** What the outside world gives one resolution: the custom command's
      outcome, and one outcome per detector of the chain for the record type. */
  datatype Lookup = Lookup(command: Attempt, probes: seq<Attempt>)

  /** The resolved address, whether the custom command ran, and how many public
      detectors ran. */
  datatype Resolution = Resolution(ip: Option<string>, ranCommand: bool, stepsTried: nat)

  /** `get_current_ip`: a configured custom command is authoritative and the
      public chain is then never consulted; otherwise the public chain decides. */
  function CurrentIp(customCommand: Option<string>, rrtype: string, env: Lookup): (r: Resolution)
    requires |env.probes| == |ChainFor(rrtype)|
    ensures r.ip.Some? ==> r.ip.value != []
    ensures r.ranCommand <==> Truthy(customCommand)
    ensures r.ranCommand ==> r.stepsTried == 0 && r.ip == CustomIp(env.command)
    ensures !r.ranCommand ==> ChainResult(r.ip, r.stepsTried) == FirstSuccess(ChainFor(rrtype), env.probes)
  {
    if Truthy(customCommand) then Resolution(CustomIp(env.command), true, 0)
    else
      var d := FirstSuccess(ChainFor(rrtype), env.probes);
      Resolution(d.ip, false, d.tried)
  }

  /** With a custom command configured, the public detectors' outcomes never
      matter. */
  lemma CustomCommandAuthoritative(cmd: Option<string>, rrtype: string, env: Lookup, other: Lookup)
    requires Truthy(cmd) && env.command == other.command
    requires |env.probes| == |ChainFor(rrtype)| && |other.probes| == |ChainFor(rrtype)|
    ensures CurrentIp(cmd, rrtype, env) == CurrentIp(cmd, rrtype, other)
  {
  }

  /** Without a custom command, a record type other than A and AAAA resolves
      to nothing without running any detector. */
  lemma UnknownTypeResolvesNothing(cmd: Option<string>, rrtype: string, env: Lookup)
    requires !Truthy(cmd) && rrtype != "A" && rrtype != "AAAA"
    requires |env.probes| == |ChainFor(rrtype)|
    ensures CurrentIp(cmd, rrtype, env) == Resolution(None, false, 0)
  {
  }
}
