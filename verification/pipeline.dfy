/**
  The sequential pipeline every travel planner builds in its framework's terms: an ordered list
  of steps, each of which fills a prompt template from the shared context, asks its agent for
  an answer, and stores the answer under its own output key for the steps after it.
  Templates are f-strings (AutoGPT, LangChain, LlamaIndex) or instruction strings with
  `{key}` placeholders filled from session state (Google ADK).
 */
module Pipeline {
  import opened Wrappers
  import Text

  /** A piece of a template: literal text, or the value stored under a context key. */
  datatype Piece = Lit(text: string) | Ref(key: string)

  type Template = seq<Piece>

  /** The shared state: the user's parameters and every output written so far. */
  type Context = map<string, string>

  /** The keys a template reads. */
  function Refs(t: Template): set<string> {
    set i | 0 <= i < |t| && t[i].Ref? :: t[i].key
  }

  lemma RefsSnoc(t: Template)
    requires |t| > 0
    ensures Refs(t) == Refs(t[..|t| - 1]) + (if t[|t| - 1].Ref? then {t[|t| - 1].key} else {})
  {
    var front := t[..|t| - 1];
    forall k | k in Refs(t) ensures k in Refs(front) + (if t[|t| - 1].Ref? then {t[|t| - 1].key} else {}) {
      var i :| 0 <= i < |t| && t[i].Ref? && t[i].key == k;
      if i < |t| - 1 {
        assert front[i] == t[i];
      }
    }
    forall k | k in Refs(front) ensures k in Refs(t) {
      var i :| 0 <= i < |front| && front[i].Ref? && front[i].key == k;
      assert t[i] == front[i];
    }
  }

  /** The text a piece contributes. */
  function PieceText(p: Piece, ctx: Context): string
    requires p.Ref? ==> p.key in ctx
  {
    if p.Lit? then p.text else ctx[p.key]
  }

  /** Filling a template left to right, as an f-string concatenates; the failure names the
      first key the context lacks (ADK's KeyError). */
  function Resolve(t: Template, ctx: Context): (r: Result<string, string>)
    ensures r.Success? <==> Refs(t) <= ctx.Keys
    ensures r.Failure? ==> r.error in Refs(t) && r.error !in ctx
    decreases |t|
  {
    if |t| == 0 then Success("")
    else
      RefsSnoc(t);
      var last := t[|t| - 1];
      match Resolve(t[..|t| - 1], ctx)
      case Failure(k) => Failure(k)
      case Success(front) =>
        if last.Ref? && last.key !in ctx then Failure(last.key)
        else if |t| == 1 then Success(PieceText(last, ctx))
        else Success(front + PieceText(last, ctx))
  }

  /** A filled template carries every value it references verbatim. */
  lemma {:induction false} ResolveEmbeds(t: Template, ctx: Context, i: nat)
    requires i < |t| && t[i].Ref? && Resolve(t, ctx).Success?
    ensures t[i].key in ctx && Text.IsSubstring(ctx[t[i].key], Resolve(t, ctx).value)
    decreases |t|
  {
    RefsSnoc(t);
    var front := t[..|t| - 1];
    var r := Resolve(t, ctx).value;
    var head := Resolve(front, ctx).value;
    var tail := PieceText(t[|t| - 1], ctx);
    assert r == (if |t| == 1 then tail else head + tail);
    if i == |t| - 1 {
      Text.SubstringOfConcat(if |t| == 1 then "" else head, tail, "");
      assert (if |t| == 1 then "" else head) + tail + "" == r;
    } else {
      assert front[i] == t[i];
      ResolveEmbeds(front, ctx, i);
      Text.SubstringExtend(ctx[t[i].key], "", head, tail);
      assert "" + head + tail == r;
    }
  }

  /** One step: its name, the key it writes, its prompt template, the tools its agent holds. */
  datatype Step = Step(name: string, outputKey: string, template: Template, tools: seq<string>)

  /** A step's generation call: the agent's final answer to the filled prompt, or a failure.
      It is also given the calls made before it in the run, which a framework that shares
      one conversation among its agents shows to the agent. */
  type Generator<!E> = (Step, string, seq<Call>) -> Result<string, E>

  datatype RunError<+E> = MissingKey(step: string, key: string) | GenerationFailed(step: string, cause: E)

  /** One generation call of a run: the step, the prompt it was given, and its answer. */
  datatype Call = Call(step: string, prompt: string, output: string)

  /** A finished run: the final context and the generation calls, in the order made. */
  datatype Trace = Trace(context: Context, calls: seq<Call>)

  function OutputKeys(steps: seq<Step>): set<string> {
    set i | 0 <= i < |steps| :: steps[i].outputKey
  }

  /** Running one step: the filled prompt goes to the generator, and only the step's own
      output key changes in the context. */
  function RunStep<E>(s: Step, ctx: Context, gen: Generator<E>, before: seq<Call>): (r: Result<(Call, Context), RunError<E>>)
    ensures r.Success? <==> Resolve(s.template, ctx).Success? && gen(s, Resolve(s.template, ctx).value, before).Success?
    ensures r.Success? ==>
      var (call, ctx') := r.value;
      && call.step == s.name
      && call.prompt == Resolve(s.template, ctx).value
      && gen(s, call.prompt, before) == Success(call.output)
      && ctx'.Keys == ctx.Keys + {s.outputKey}
      && ctx'[s.outputKey] == call.output
      && (forall k | k in ctx && k != s.outputKey :: ctx'[k] == ctx[k])
  {
    match Resolve(s.template, ctx)
    case Failure(k) => Failure(MissingKey(s.name, k))
    case Success(prompt) =>
      match gen(s, prompt, before)
      case Failure(e) => Failure(GenerationFailed(s.name, e))
      case Success(output) => Success((Call(s.name, prompt, output), ctx[s.outputKey := output]))
  }

  /** Running the steps in order, stopping at the first failure: one generation call per step,
      in step order. */
  function Run<E>(steps: seq<Step>, ctx: Context, gen: Generator<E>, before: seq<Call>): (r: Result<Trace, RunError<E>>)
    ensures r.Success? ==>
      && |r.value.calls| == |steps|
      && (forall i | 0 <= i < |steps| :: r.value.calls[i].step == steps[i].name)
    decreases |steps|
  {
    if |steps| == 0 then Success(Trace(ctx, []))
    else
      match RunStep(steps[0], ctx, gen, before)
      case Failure(e) => Failure(e)
      case Success((call, ctx')) =>
        match Run(steps[1..], ctx', gen, before + [call])
        case Failure(e) => Failure(e)
        case Success(rest) =>
          assert forall i | 1 <= i < |steps| :: steps[i] == steps[1..][i - 1];
          Success(Trace(rest.context, [call] + rest.calls))
  }

  /** Each call of a successful run is the generator's answer for its step, its prompt, and
      exactly the calls made before it. */
  lemma {:induction false} RunCalls<E>(steps: seq<Step>, ctx: Context, gen: Generator<E>, before: seq<Call>, i: nat)
    requires Run(steps, ctx, gen, before).Success? && i < |steps|
    ensures var calls := Run(steps, ctx, gen, before).value.calls;
      gen(steps[i], calls[i].prompt, before + calls[..i]) == Success(calls[i].output)
    decreases |steps|
  {
    var calls := Run(steps, ctx, gen, before).value.calls;
    var first := RunStep(steps[0], ctx, gen, before);
    assert first.Success?;
    var call := first.value.0;
    if i == 0 {
      assert calls[0] == call;
      assert before + calls[..0] == before;
    } else {
      var ctx' := first.value.1;
      var rest := Run(steps[1..], ctx', gen, before + [call]).value.calls;
      assert calls == [call] + rest;
      assert steps[1..][i - 1] == steps[i];
      RunCalls(steps[1..], ctx', gen, before + [call], i - 1);
      CallsBefore(before, call, rest, i);
    }
  }

  /** The calls before the `i`-th of `[call] + rest`, following `before`, are `before + [call]`
      followed by the calls of `rest` before its `(i-1)`-th. */
  lemma CallsBefore(before: seq<Call>, call: Call, rest: seq<Call>, i: nat)
    requires 0 < i <= |rest| + 1
    ensures before + ([call] + rest)[..i] == (before + [call]) + rest[..i - 1]
  {
    assert ([call] + rest)[..i] == [call] + rest[..i - 1];
  }

  lemma OutputKeysCons(steps: seq<Step>)
    requires |steps| > 0
    ensures OutputKeys(steps) == {steps[0].outputKey} + OutputKeys(steps[1..])
  {
    forall k | k in OutputKeys(steps) ensures k in {steps[0].outputKey} + OutputKeys(steps[1..]) {
      var i :| 0 <= i < |steps| && steps[i].outputKey == k;
      if i > 0 { assert steps[1..][i - 1] == steps[i]; }
    }
    forall k | k in OutputKeys(steps[1..]) ensures k in OutputKeys(steps) {
      var i :| 0 <= i < |steps[1..]| && steps[1..][i].outputKey == k;
      assert steps[i + 1] == steps[1..][i];
    }
  }

  /** A successful run adds exactly the steps' output keys to the context and leaves every
      other key as it was. */
  lemma {:induction false} RunContext<E>(steps: seq<Step>, ctx: Context, gen: Generator<E>, before: seq<Call>)
    requires Run(steps, ctx, gen, before).Success?
    ensures var final := Run(steps, ctx, gen, before).value.context;
      && final.Keys == ctx.Keys + OutputKeys(steps)
      && (forall k | k in ctx && k !in OutputKeys(steps) :: final[k] == ctx[k])
    decreases |steps|
  {
    if |steps| > 0 {
      var (call, ctx') := RunStep(steps[0], ctx, gen, before).value;
      OutputKeysCons(steps);
      RunContext(steps[1..], ctx', gen, before + [call]);
    }
  }

  /** Output keys are pairwise distinct, so no step overwrites another's output. */
  predicate DistinctOutputs(steps: seq<Step>) {
    forall i, j | 0 <= i < j < |steps| :: steps[i].outputKey != steps[j].outputKey
  }

  /** The keys readable by step `i`: the initial ones and the outputs of the steps before it. */
  function KeysBefore(initial: set<string>, steps: seq<Step>, i: nat): set<string>
    requires i <= |steps|
  {
    initial + OutputKeys(steps[..i])
  }

  /** No forward references: every step reads only keys present at the start or written by
      an earlier step. */
  predicate NoForwardReferences(initial: set<string>, steps: seq<Step>) {
    forall i | 0 <= i < |steps| :: Refs(steps[i].template) <= KeysBefore(initial, steps, i)
  }

  lemma NoForwardReferencesTail(initial: set<string>, steps: seq<Step>)
    requires |steps| > 0 && NoForwardReferences(initial, steps)
    ensures NoForwardReferences(initial + {steps[0].outputKey}, steps[1..])
  {
    forall i | 0 <= i < |steps[1..]|
      ensures Refs(steps[1..][i].template) <= KeysBefore(initial + {steps[0].outputKey}, steps[1..], i)
    {
      assert steps[1..][i] == steps[i + 1];
      forall k | k in OutputKeys(steps[..i + 1]) ensures k in {steps[0].outputKey} + OutputKeys(steps[1..][..i]) {
        var j :| 0 <= j < i + 1 && steps[..i + 1][j].outputKey == k;
        if j > 0 { assert steps[1..][..i][j - 1] == steps[j]; }
      }
    }
  }

  /** A pipeline without forward references never fails on a missing key, so when every
      generation call succeeds, the whole run does. */
  lemma {:induction false} NoForwardReferencesRun<E>(steps: seq<Step>, ctx: Context, gen: Generator<E>, before: seq<Call>)
    requires NoForwardReferences(ctx.Keys, steps)
    ensures Run(steps, ctx, gen, before).Failure? ==> Run(steps, ctx, gen, before).error.GenerationFailed?
    ensures (forall s, p, h :: gen(s, p, h).Success?) ==> Run(steps, ctx, gen, before).Success?
    decreases |steps|
  {
    if |steps| > 0 {
      assert steps[..0] == [];
      assert Refs(steps[0].template) <= KeysBefore(ctx.Keys, steps, 0);
      var r := RunStep(steps[0], ctx, gen, before);
      if r.Success? {
        NoForwardReferencesTail(ctx.Keys, steps);
        NoForwardReferencesRun(steps[1..], r.value.1, gen, before + [r.value.0]);
      }
    }
  }

  /** A three-step pipeline has no forward references when the first step reads only initial
      keys, the second also the first's output, and the third also the second's. */
  lemma ThreeStepsWellOrdered(initial: set<string>, steps: seq<Step>)
    requires |steps| == 3
    requires Refs(steps[0].template) <= initial
    requires Refs(steps[1].template) <= initial + {steps[0].outputKey}
    requires Refs(steps[2].template) <= initial + {steps[0].outputKey, steps[1].outputKey}
    ensures NoForwardReferences(initial, steps)
  {
    assert OutputKeys(steps[..1]) == {steps[0].outputKey} by {
      assert steps[..1][0] == steps[0];
    }
    assert OutputKeys(steps[..2]) == {steps[0].outputKey, steps[1].outputKey} by {
      assert steps[..2][0] == steps[0] && steps[..2][1] == steps[1];
    }
    assert steps[..0] == [];
  }

  /** Appending a piece whose key is present appends its text. */
  lemma ResolveSnoc(t: Template, ctx: Context, n: nat)
    requires 0 < n < |t| && Resolve(t[..n], ctx).Success? && (t[n].Ref? ==> t[n].key in ctx)
    ensures Resolve(t[..n + 1], ctx) == Success(Resolve(t[..n], ctx).value + PieceText(t[n], ctx))
  {
    assert t[..n + 1][..n] == t[..n];
  }

  /** A value in the context survives into the prompt of step `i` when no step before `i`
      overwrites its key. */
  lemma {:induction false} PromptSeesContext<E>(steps: seq<Step>, ctx: Context, gen: Generator<E>, before: seq<Call>, i: nat, t: nat)
    requires Run(steps, ctx, gen, before).Success?
    requires i < |steps| && t < |steps[i].template| && steps[i].template[t].Ref?
    requires steps[i].template[t].key in ctx
    requires forall l | 0 <= l < i :: steps[l].outputKey != steps[i].template[t].key
    ensures Text.IsSubstring(ctx[steps[i].template[t].key], Run(steps, ctx, gen, before).value.calls[i].prompt)
    decreases |steps|
  {
    var (call, ctx') := RunStep(steps[0], ctx, gen, before).value;
    if i == 0 {
      ResolveEmbeds(steps[0].template, ctx, t);
    } else {
      assert steps[1..][i - 1] == steps[i];
      PromptSeesContext(steps[1..], ctx', gen, before + [call], i - 1, t);
    }
  }

  /** In a successful run with distinct output keys, the final context holds each step's
      answer under its key. */
  lemma {:induction false} OutputsPersist<E>(steps: seq<Step>, ctx: Context, gen: Generator<E>, before: seq<Call>, j: nat)
    requires Run(steps, ctx, gen, before).Success? && DistinctOutputs(steps) && j < |steps|
    ensures var trace := Run(steps, ctx, gen, before).value;
      steps[j].outputKey in trace.context && trace.context[steps[j].outputKey] == trace.calls[j].output
    decreases |steps|
  {
    var (call, ctx') := RunStep(steps[0], ctx, gen, before).value;
    if j == 0 {
      RunContext(steps[1..], ctx', gen, before + [call]);
      assert steps[0].outputKey !in OutputKeys(steps[1..]) by {
        forall l | 0 <= l < |steps[1..]| ensures steps[1..][l].outputKey != steps[0].outputKey {
          assert steps[1..][l] == steps[l + 1];
        }
      }
    } else {
      assert steps[1..][j - 1] == steps[j];
      OutputsPersist(steps[1..], ctx', gen, before + [call], j - 1);
    }
  }

  /** The final context of a three-step run with distinct output keys: the initial keys and
      the three output keys, each holding its step's answer. */
  lemma ThreeStepFinalContext<E>(steps: seq<Step>, ctx: Context, gen: Generator<E>, before: seq<Call>)
    requires |steps| == 3 && Run(steps, ctx, gen, before).Success? && DistinctOutputs(steps)
    ensures var trace := Run(steps, ctx, gen, before).value;
      && trace.context.Keys == ctx.Keys + {steps[0].outputKey, steps[1].outputKey, steps[2].outputKey}
      && trace.context[steps[0].outputKey] == trace.calls[0].output
      && trace.context[steps[1].outputKey] == trace.calls[1].output
      && trace.context[steps[2].outputKey] == trace.calls[2].output
  {
    RunContext(steps, ctx, gen, before);
    assert OutputKeys(steps) == {steps[0].outputKey, steps[1].outputKey, steps[2].outputKey} by {
      var keys := OutputKeys(steps);
      assert steps[0].outputKey in keys && steps[1].outputKey in keys && steps[2].outputKey in keys;
    }
    OutputsPersist(steps, ctx, gen, before, 0);
    OutputsPersist(steps, ctx, gen, before, 1);
    OutputsPersist(steps, ctx, gen, before, 2);
  }

  /** The prompt of a later step carries, verbatim, the answer of every earlier step whose
      output key it references. */
  lemma {:induction false} PromptEmbedsEarlierOutput<E>(steps: seq<Step>, ctx: Context, gen: Generator<E>, before: seq<Call>, j: nat, i: nat, t: nat)
    requires Run(steps, ctx, gen, before).Success? && DistinctOutputs(steps)
    requires j < i < |steps| && t < |steps[i].template|
    requires steps[i].template[t] == Ref(steps[j].outputKey)
    ensures var trace := Run(steps, ctx, gen, before).value;
      Text.IsSubstring(trace.calls[j].output, trace.calls[i].prompt)
    decreases |steps|
  {
    var (call, ctx') := RunStep(steps[0], ctx, gen, before).value;
    assert steps[1..][i - 1] == steps[i];
    if j == 0 {
      forall l | 0 <= l < i - 1 ensures steps[1..][l].outputKey != steps[1..][i - 1].template[t].key {
        assert steps[1..][l] == steps[l + 1];
      }
      PromptSeesContext(steps[1..], ctx', gen, before + [call], i - 1, t);
    } else {
      assert steps[1..][j - 1] == steps[j];
      PromptEmbedsEarlierOutput(steps[1..], ctx', gen, before + [call], j - 1, i - 1, t);
    }
  }

  /** The prompts of a three-step run: the first step's template is filled from the initial
      context, the second's with the first answer written under its key, and the third's with
      both answers written. */
  lemma ThreeStepPrompts<E>(steps: seq<Step>, ctx: Context, gen: Generator<E>, before: seq<Call>)
    requires |steps| == 3 && Run(steps, ctx, gen, before).Success?
    ensures var calls := Run(steps, ctx, gen, before).value.calls;
      var ctx1 := ctx[steps[0].outputKey := calls[0].output];
      var ctx2 := ctx1[steps[1].outputKey := calls[1].output];
      && Resolve(steps[0].template, ctx) == Success(calls[0].prompt)
      && Resolve(steps[1].template, ctx1) == Success(calls[1].prompt)
      && Resolve(steps[2].template, ctx2) == Success(calls[2].prompt)
  {
    var calls := Run(steps, ctx, gen, before).value.calls;
    var (c0, ctx1) := RunStep(steps[0], ctx, gen, before).value;
    var run1 := Run(steps[1..], ctx1, gen, before + [c0]);
    assert calls == [c0] + run1.value.calls;
    var (c1, ctx2) := RunStep(steps[1..][0], ctx1, gen, before + [c0]).value;
    var run2 := Run(steps[1..][1..], ctx2, gen, before + [c0] + [c1]);
    assert run1.value.calls == [c1] + run2.value.calls;
    var (c2, _) := RunStep(steps[1..][1..][0], ctx2, gen, before + [c0] + [c1]).value;
    assert run2.value.calls[0] == c2;
    assert steps[1..][0] == steps[1] && steps[1..][1..][0] == steps[2];
  }
}
