/** The dial plan as Asterisk reads it: rules, what they match, and which of them answers. */
module DialRules {
  import opened Wrappers
  import opened ExtensionKeys

  /** One place of a pattern: a character, any decimal digit, or everything that is left (at least one character). */
  datatype Atom = Lit(c: char) | AnyDigit | Rest

  datatype Exten = Exact(text: string) | Pattern(atoms: seq<Atom>)

  datatype Action =
    | Ring(key: string)
    | Application(dialled: string, key: string)
    | NoService
    | Trunk
    | VoicemailLogin
    | LeaveMessage(mailbox: string)

  datatype Rule = Rule(exten: Exten, action: Action)

  predicate Fits(atoms: seq<Atom>, text: string)
    decreases |atoms|
  {
    if atoms == [] then text == ""
    else text != "" && match atoms[0]
      case Lit(c) => text[0] == c && Fits(atoms[1..], text[1..])
      case AnyDigit => IsDigit(text[0]) && Fits(atoms[1..], text[1..])
      case Rest => true
  }

  predicate Matches(exten: Exten, text: string) {
    match exten
    case Exact(t) => t == text
    case Pattern(atoms) => Fits(atoms, text)
  }

  function Width(atom: Atom): nat {
    match atom
    case Lit(_) => 0
    case AnyDigit => 1
    case Rest => 2
  }

  /** At the first place where two patterns differ in width, the narrower one comes first. */
  predicate Narrower(p: seq<Atom>, q: seq<Atom>)
    decreases |p|
  {
    p != [] && q != [] && (Width(p[0]) < Width(q[0]) || (Width(p[0]) == Width(q[0]) && Narrower(p[1..], q[1..])))
  }

  /** A literal beats every pattern, and a narrower pattern beats a wider one. */
  predicate Beats(a: Exten, b: Exten) {
    match (a, b)
    case (Exact(_), Pattern(_)) => true
    case (Pattern(p), Pattern(q)) => Narrower(p, q)
    case _ => false
  }

  /** The rule that answers: the one that matches and is beaten by no other. */
  function Best(rules: seq<Rule>, text: string): Option<Rule>
    decreases |rules|
  {
    if rules == [] then None
    else
      var last, before := rules[|rules| - 1], Best(rules[..|rules| - 1], text);
      if Matches(last.exten, text) && (before.None? || Beats(last.exten, before.value.exten)) then Some(last) else before
  }

  /** What dialling does in a context; nothing when no rule matches. */
  function Dial(rules: seq<Rule>, text: string): Option<Action> {
    match Best(rules, text)
    case Some(rule) => Some(rule.action)
    case None => None
  }

  lemma {:induction false} NarrowerThen(p: seq<Atom>, q: seq<Atom>, r: seq<Atom>)
    requires Narrower(p, q) && Narrower(q, r)
    ensures Narrower(p, r)
    decreases |p|
  {
    if Width(p[0]) == Width(q[0]) == Width(r[0]) { NarrowerThen(p[1..], q[1..], r[1..]); }
  }

  lemma BeatsThen(a: Exten, b: Exten, c: Exten)
    requires Beats(a, b) && Beats(b, c)
    ensures Beats(a, c)
  {
    if a.Pattern? { NarrowerThen(a.atoms, b.atoms, c.atoms); }
  }

  /** The rule that answers matches, and no matching rule beats it. */
  predicate Answers(rules: seq<Rule>, text: string, rule: Rule) {
    && rule in rules && Matches(rule.exten, text)
    && forall other :: other in rules && Matches(other.exten, text) ==> !Beats(other.exten, rule.exten)
  }

  lemma {:induction false} BestAnswers(rules: seq<Rule>, text: string)
    ensures match Best(rules, text)
            case Some(rule) => Answers(rules, text, rule)
            case None => forall rule :: rule in rules ==> !Matches(rule.exten, text)
    decreases |rules|
  {
    if rules != [] {
      hide Matches, Beats;
      var shorter, last := rules[..|rules| - 1], rules[|rules| - 1];
      BestAnswers(shorter, text);
      assert rules == shorter + [last];
      match Best(rules, text)
      case None =>
      case Some(rule) =>
        forall other | other in rules && Matches(other.exten, text) ensures !Beats(other.exten, rule.exten) {
          NotItself(last.exten);
          if Best(shorter, text).Some? && rule == last && Beats(other.exten, last.exten) {
            if other in shorter { BeatsThen(other.exten, last.exten, Best(shorter, text).value.exten); }
          }
        }
    }
  }

  lemma {:induction false} NarrowerNotItself(p: seq<Atom>)
    ensures !Narrower(p, p)
  {
    if p != [] { NarrowerNotItself(p[1..]); }
  }

  lemma NotItself(a: Exten)
    ensures !Beats(a, a)
  {
    if a.Pattern? { NarrowerNotItself(a.atoms); }
  }

  /** When some rule matches and every answering candidate has one action, dialling does that. */
  lemma DialsTo(rules: seq<Rule>, text: string, action: Action, witness_: Rule)
    requires witness_ in rules && Matches(witness_.exten, text)
    requires forall rule :: Answers(rules, text, rule) ==> rule.action == action
    ensures Dial(rules, text) == Some(action)
  {
    BestAnswers(rules, text);
  }

  function Literal(text: string): (r: seq<Atom>)
    ensures |r| == |text|
    ensures forall i :: 0 <= i < |text| ==> r[i] == Lit(text[i])
  {
    seq(|text|, i requires 0 <= i < |text| => Lit(text[i]))
  }

  /** A pattern that begins with a literal text matches exactly what begins with that text. */
  lemma {:induction false} LiteralFits(prefix: string, atoms: seq<Atom>, text: string)
    ensures Fits(Literal(prefix) + atoms, text) <==> prefix <= text && Fits(atoms, text[|prefix|..])
    decreases |prefix|
  {
    if prefix == "" {
      assert Literal(prefix) + atoms == atoms;
    } else if text != "" {
      LiteralFits(prefix[1..], atoms, text[1..]);
      assert (Literal(prefix) + atoms)[1..] == Literal(prefix[1..]) + atoms;
      if prefix <= text {
        assert text[1..][|prefix| - 1..] == text[|prefix|..];
        assert prefix[1..] <= text[1..];
      }
      if prefix[0] == text[0] && prefix[1..] <= text[1..] {
        assert prefix == [prefix[0]] + prefix[1..] && text == [text[0]] + text[1..];
        assert text[1..][|prefix| - 1..] == text[|prefix|..];
      }
    }
  }

  /** No two rules of a context are written for the same exten. */
  predicate Distinct(rules: seq<Rule>) {
    forall i, j :: 0 <= i < j < |rules| ==> rules[i].exten != rules[j].exten
  }

  predicate Apart(a: seq<Rule>, b: seq<Rule>) {
    forall p, q :: p in a && q in b ==> p.exten != q.exten
  }

  lemma DistinctTogether(a: seq<Rule>, b: seq<Rule>)
    requires Distinct(a) && Distinct(b) && Apart(a, b)
    ensures Distinct(a + b)
  {}
}
