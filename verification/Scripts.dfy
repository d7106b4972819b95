/** Environments made for a purpose: a model that always writes the same events, in a world where
    nothing else happens. */
module Scripts {
  import opened Text
  import opened Tags
  import opened HarnessState
  import opened SiteSpecs
  import opened LoopSpec
  import opened Transcript
  import opened Printer
  import Parser
  import Patterns
  import RoundTrip

  /** The same environment with a model that gives these replies. */
  function WithReplies(env: Env, reply: nat -> Reply): Env {
    env.(world := env.world.(reply := reply))
  }

  /** Events that are written without children and read back unchanged. */
  predicate Scriptable(es: seq<Event>) {
    forall e :: e in es ==> Canonical(e) && !e.AskEvent? && !e.SwarmEvent?
  }

  /** No whitespace between the tags. */
  function Compact(es: seq<Event>): (lays: seq<Layout>)
    ensures |lays| == |es|
  {
    seq(|es|, _ => Layout("", [], ""))
  }

  function Script(es: seq<Event>): string
    requires Scriptable(es)
  {
    PrintReply("", Compact(es), es)
  }

  /** A model that writes these events and nothing else, every time. */
  function Scripted(env: Env, es: seq<Event>): Env
    requires Scriptable(es)
  {
    var text := Script(es);
    WithReplies(env, (n: nat) => Replied(text, "m", 0, 0))
  }

  lemma ScriptEvents(env: Env, es: seq<Event>)
    requires Scriptable(es)
    ensures EventsOf(env, Script(es)) == es
  {
    hide Parser.Parse, PrintReply, Canonical;
    RoundTrip.ParseOfPrint(Patterns.Lexicon(env.policy.builtIn, env.letters), "", Compact(es), es);
    assert ReadBackAll(es) == es;
  }

  lemma ScriptWork(env: Env, es: seq<Event>, k: nat)
    requires Scriptable(es)
    ensures var w := WorkAt(Scripted(env, es), k);
      w.batch == BatchOf(es) && w.kept == KeptAfterTrim(env.caps, BatchOf(es).calls)
  {
    hide EventsOf, Script, BatchOf, KeptAfterTrim, Scriptable;
    ScriptEvents(Scripted(env, es), es);
  }

  /** Every answer is empty, every tool succeeds, and every clock reads one millisecond. */
  function StillWorld(): World {
    World((n: nat) => Replied("", "m", 1, 1), (n: nat) => 1, (n: nat) => 1, (n: nat) => map[], (n: nat) => false,
      (i: nat, j: nat) => None, (i: nat, j: nat) => None, (i: nat, j: nat) => ToolResult(true, None, None),
      (i: nat, j: nat) => ToolResult(true, None, None), (i: nat, j: nat) => ToolResult(true, None, None),
      (n: nat) => "OK", (n: nat, t: string) => "", (c: Call) => "", (r: Record) => "")
  }
}
