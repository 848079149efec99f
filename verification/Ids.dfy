/** The printed identifiers of the coordination store. Task ids are free text and may hold the separator;
    endpoint names, generations and codes do not, which is what makes most ids readable back from the right,
    and what one pair of them lacks.
 */
module Ids {
  import opened Coordination

  function Digits(n: nat): string {
    if n < 10 then [('0' as int + n) as char] else Digits(n / 10) + [('0' as int + n % 10) as char]
  }

  function Decimal(n: int): string {
    if n < 0 then "-" + Digits(-n) else Digits(n)
  }

  function NameText(e: EndpointName): string {
    match e
    case Plan => "plan"
    case Execute => "execute"
    case Verify => "verify"
  }

  function KindText(k: Kind): string {
    match k
    case Started => "PhaseInvocationStarted"
    case Output => "PhaseOutputSubmitted"
    case Failed => "PhaseInvocationFailed"
    case Stopped => "PhaseInvocationStopped"
    case DispatchRejected => "DispatchRejected"
  }

  /** The part every id of an endpoint generation ends with. */
  function GenerationText(r: EndpointRef, g: int): string {
    r.task + ":" + (NameText(r.endpoint) + ":" + Decimal(g))
  }

  function LeaseText(l: LeaseId): string
    requires l.LeaseId?
  {
    "lease:" + GenerationText(l.endpoint, l.generation)
  }

  /** Commands as the store creates them. */
  predicate Printable(c: CommandId) {
    c.RunCommand? || (c.StopCommand? && c.lease.LeaseId?)
  }

  function CommandText(c: CommandId): string
    requires Printable(c)
  {
    match c
    case RunCommand(r, g) => "cmd:run:" + GenerationText(r, g)
    case StopCommand(l) => "cmd:stop:" + LeaseText(l)
  }

  function PhaseEventText(k: Kind, c: CommandId): string
    requires Printable(c)
  {
    "phase-observation:" + (KindText(k) + ":" + CommandText(c))
  }

  function CommandRejectionText(c: CommandId, code: string): string
    requires Printable(c)
  {
    "dispatch-rejection:" + (CommandText(c) + ":" + code)
  }

  function EndpointRejectionText(r: EndpointRef, g: int, code: string): string {
    "dispatch-rejection:" + (GenerationText(r, g) + ":" + code)
  }

  lemma DigitsPlain(n: nat)
    ensures Digits(n) != [] && forall c <- Digits(n) :: '0' <= c <= '9'
  {
  }

  lemma {:induction false} DigitsInjective(m: nat, n: nat)
    requires Digits(m) == Digits(n)
    ensures m == n
  {
    DigitsPlain(m / 10);
    DigitsPlain(n / 10);
    var s, t := Digits(m), Digits(n);
    assert s[|s| - 1] == ('0' as int + m % 10) as char;
    assert t[|t| - 1] == ('0' as int + n % 10) as char;
    if m >= 10 && n >= 10 {
      assert s[..|s| - 1] == Digits(m / 10) && t[..|t| - 1] == Digits(n / 10);
      DigitsInjective(m / 10, n / 10);
    }
  }

  lemma SignShows(n: int)
    ensures Decimal(n) != [] && (Decimal(n)[0] == '-' <==> n < 0)
  {
    if n >= 0 {
      DigitsPlain(n);
      assert Decimal(n)[0] in Digits(n);
    }
  }

  lemma DecimalInjective(m: int, n: int)
    requires Decimal(m) == Decimal(n)
    ensures m == n
  {
    SignShows(m);
    SignShows(n);
    if m < 0 {
      assert Decimal(m)[1..] == Digits(-m) && Decimal(n)[1..] == Digits(-n);
      DigitsInjective(-m, -n);
    } else {
      DigitsInjective(m, n);
    }
  }

  lemma NoSeparator(g: int, e: EndpointName)
    ensures ':' !in Decimal(g) && ':' !in NameText(e)
  {
    DigitsPlain(if g < 0 then -g else g);
  }

  lemma NameInjective(a: EndpointName, b: EndpointName)
    requires NameText(a) == NameText(b)
    ensures a == b
  {
    assert NameText(Plan)[0] == 'p' && NameText(Execute)[0] == 'e' && NameText(Verify)[0] == 'v';
  }

  /** A text is cut in one way only at its last separator. */
  lemma CutLast(a: string, x: string, b: string, y: string)
    requires a + ":" + x == b + ":" + y && ':' !in x && ':' !in y
    ensures a == b && x == y
  {
    var s := a + ":" + x;
    assert s[|a|] == ':' && s[|b|] == ':';
    assert forall i :: |a| < i < |s| ==> s[i] == x[i - |a| - 1];
    assert forall i :: |b| < i < |s| ==> s[i] == y[i - |b| - 1];
    assert |a| == |b|;
    assert a == s[..|a|] && b == s[..|b|] && x == s[|a| + 1..] && y == s[|b| + 1..];
  }

  /** And at its first, when what comes before holds none. */
  lemma CutFirst(x: string, a: string, y: string, b: string)
    requires x + ":" + a == y + ":" + b && ':' !in x && ':' !in y
    ensures x == y && a == b
  {
    var s := x + ":" + a;
    assert s[|x|] == ':' && s[|y|] == ':';
    assert forall i :: 0 <= i < |x| ==> s[i] == x[i];
    assert forall i :: 0 <= i < |y| ==> s[i] == y[i];
    assert |x| == |y|;
    assert x == s[..|x|] && y == s[..|y|] && a == s[|x| + 1..] && b == s[|y| + 1..];
  }

  lemma DropPrefix(p: string, a: string, b: string)
    ensures p + a == p + b <==> a == b
  {
    assert (p + a)[|p|..] == a && (p + b)[|p|..] == b;
  }

  lemma GenerationTextInjective(r: EndpointRef, g: int, r': EndpointRef, g': int)
    ensures GenerationText(r, g) == GenerationText(r', g') <==> r == r' && g == g'
  {
    if GenerationText(r, g) == GenerationText(r', g') {
      NoSeparator(g, r.endpoint);
      NoSeparator(g', r'.endpoint);
      var n, n' := NameText(r.endpoint), NameText(r'.endpoint);
      assert GenerationText(r, g) == (r.task + ":" + n) + ":" + Decimal(g);
      assert GenerationText(r', g') == (r'.task + ":" + n') + ":" + Decimal(g');
      CutLast(r.task + ":" + n, Decimal(g), r'.task + ":" + n', Decimal(g'));
      CutLast(r.task, n, r'.task, n');
      DecimalInjective(g, g');
      NameInjective(r.endpoint, r'.endpoint);
    }
  }

  /** Lease ids name one endpoint generation, whatever the task is called. */
  lemma LeaseTextInjective(a: LeaseId, b: LeaseId)
    requires a.LeaseId? && b.LeaseId?
    ensures LeaseText(a) == LeaseText(b) <==> a == b
  {
    DropPrefix("lease:", GenerationText(a.endpoint, a.generation), GenerationText(b.endpoint, b.generation));
    GenerationTextInjective(a.endpoint, a.generation, b.endpoint, b.generation);
  }

  /** Command ids name one command: runs and stops are never confused. */
  lemma CommandTextInjective(a: CommandId, b: CommandId)
    requires Printable(a) && Printable(b)
    ensures CommandText(a) == CommandText(b) <==> a == b
  {
    match (a, b) {
      case (RunCommand(r, g), RunCommand(r', g')) =>
        DropPrefix("cmd:run:", GenerationText(r, g), GenerationText(r', g'));
        GenerationTextInjective(r, g, r', g');
      case (StopCommand(l), StopCommand(l')) =>
        DropPrefix("cmd:stop:", LeaseText(l), LeaseText(l'));
        LeaseTextInjective(l, l');
      case (RunCommand(r, g), StopCommand(l)) =>
        assert CommandText(a)[4] == 'r' && CommandText(b)[4] == 's';
      case (StopCommand(l), RunCommand(r, g)) =>
        assert CommandText(a)[4] == 's' && CommandText(b)[4] == 'r';
    }
  }

  lemma KindInjective(a: Kind, b: Kind)
    requires KindText(a) == KindText(b)
    ensures a == b
  {
    assert |KindText(Output)| == 20 && |KindText(Failed)| == 21 && |KindText(DispatchRejected)| == 16;
    assert KindText(Started)[17] == 'a' && KindText(Stopped)[17] == 'o';
  }

  lemma KindPlain(k: Kind)
    ensures ':' !in KindText(k)
  {
  }

  /** Observation ids name one kind of report about one command, so a repeated report finds its own record. */
  lemma PhaseEventTextInjective(k: Kind, c: CommandId, k': Kind, c': CommandId)
    requires Printable(c) && Printable(c')
    ensures PhaseEventText(k, c) == PhaseEventText(k', c') <==> k == k' && c == c'
  {
    if PhaseEventText(k, c) == PhaseEventText(k', c') {
      DropPrefix("phase-observation:", KindText(k) + ":" + CommandText(c), KindText(k') + ":" + CommandText(c'));
      KindPlain(k);
      KindPlain(k');
      CutFirst(KindText(k), CommandText(c), KindText(k'), CommandText(c'));
      KindInjective(k, k');
      CommandTextInjective(c, c');
    }
  }

  /** The endpoint whose generation text is the whole id of a command. */
  function Namesake(c: CommandId): EndpointRef
    requires Printable(c)
  {
    match c
    case RunCommand(r, _) => EndpointRef("cmd:run:" + r.task, r.endpoint)
    case StopCommand(l) => EndpointRef("cmd:stop:lease:" + l.endpoint.task, l.endpoint.endpoint)
  }

  function GenerationOf(c: CommandId): int
    requires Printable(c)
  {
    match c
    case RunCommand(_, g) => g
    case StopCommand(l) => l.generation
  }

  lemma NamesakeText(c: CommandId)
    requires Printable(c)
    ensures CommandText(c) == GenerationText(Namesake(c), GenerationOf(c))
  {
    if c.StopCommand? {
      var rest := GenerationText(c.lease.endpoint, c.lease.generation);
      assert "cmd:stop:" + ("lease:" + rest) == "cmd:stop:lease:" + rest;
    }
  }

  /** The id under which a command's refused dispatch is noted and the one under which an endpoint's is noted
      are the same text exactly when the endpoint's task is named after that command's own prefix. */
  lemma RejectionTextsCollideIff(c: CommandId, code: string, r: EndpointRef, g: int, code': string)
    requires Printable(c) && ':' !in code && ':' !in code'
    ensures CommandRejectionText(c, code) == EndpointRejectionText(r, g, code') <==>
            code == code' && r == Namesake(c) && g == GenerationOf(c)
  {
    NamesakeText(c);
    GenerationTextInjective(Namesake(c), GenerationOf(c), r, g);
    DropPrefix("dispatch-rejection:", CommandText(c) + ":" + code, GenerationText(r, g) + ":" + code');
    if CommandText(c) + ":" + code == GenerationText(r, g) + ":" + code' {
      CutLast(CommandText(c), code, GenerationText(r, g), code');
    }
  }
}
