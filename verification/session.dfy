/** Starting a turn (`Agent.Prompt` in agent-core/packages/agent/core/agent.go
    and the orchestrator selection of core/orchestrate.go). The
    process-wide default orchestrator is passed in as a parameter; the
    goroutine that runs the orchestrator is collapsed into the call. */
module Session {
  import opened Wrappers
  import opened Messages
  import AgentStates
  import Events
  import EventStream
  import Agent
  import opened Orchestration
  import PlanParse
  import Agentic
  import PlanExecute

  const NoOrchestratorError := "no orchestrator configured: set AgentConfig.Orchestrator or import "
    + "github.com/biome/agent-core/packages/agent/orchestrators/agentic for the default agentic loop"

  /** The orchestrator a turn runs: the configured one, else the registered
      default, else none. */
  function Selected(cfg: Agent.AgentConfig, fallback: Option<Agent.Orchestrator>): (o: Option<Agent.Orchestrator>)
    ensures cfg.orchestrator.Some? ==> o == cfg.orchestrator
    ensures cfg.orchestrator.None? ==> o == fallback
  {
    if cfg.orchestrator.Some? then cfg.orchestrator else fallback
  }

  /** The world a turn starts in: the state with the user message appended,
      a fresh stream, nothing requested, checked or polled yet. */
  function Start(s: AgentStates.AgentState, user: Message): (w: World)
    ensures w.state == s.(messages := s.messages + [user])
    ensures w.stream == EventStream.Open([]) && w.requests == []
    ensures w.checks == 0 && w.steeringPolls == 0 && w.followUpPolls == 0
  {
    World(s.(messages := s.messages + [user]), EventStream.NewStream(), [], 0, 0, 0)
  }

  /** `Prompt`: appends exactly the user message, then hands the turn to
      the selected orchestrator; with none the stream fails with no events
      and nothing else happens. Whatever runs, the history it leaves starts
      with the old history and the user message. */
  function Prompt(env: Env, decode: PlanParse.PlanDecoder, fallback: Option<Agent.Orchestrator>,
                  s: AgentStates.AgentState, user: Message, fuel: nat): (r: World)
    requires EnvOk(env) && user.UserMessage?
    ensures s.messages + [user] <= r.state.messages
    ensures Selected(env.cfg, fallback).None? ==>
              r == Start(s, user).(stream := EventStream.Failed([], NoOrchestratorError))
    ensures Selected(env.cfg, fallback).Some? ==> |r.stream.events| > 0 && r.stream.events[0] == Events.TurnStart
    ensures Selected(env.cfg, fallback) == Some(Agent.PlanAndExecute) ==> !r.stream.Open?
    ensures r.stream.Ended? ==> r.stream.result == r.state.messages
  {
    var w := Start(s, user);
    var o := Selected(env.cfg, fallback);
    if o.None? then w.(stream := EventStream.EndWithError(w.stream, NoOrchestratorError))
    else Dispatch(env, decode, o.value, w, fuel)
  }

  /** Running the selected orchestrator on an open stream: it announces the
      turn first, keeps the history it was given as a prefix, and, when it
      ends the stream, ends it with the history it leaves. */
  function Dispatch(env: Env, decode: PlanParse.PlanDecoder, o: Agent.Orchestrator, w: World, fuel: nat): (r: World)
    requires EnvOk(env) && w.stream.Open?
    ensures w.state.messages <= r.state.messages
    ensures |r.stream.events| > |w.stream.events| && r.stream.events[|w.stream.events|] == Events.TurnStart
    ensures o.PlanAndExecute? ==> !r.stream.Open?
    ensures r.stream.Ended? ==> r.stream.result == r.state.messages
  {
    if o.AgenticLoop? then Agentic.Run(env, w, fuel) else PlanExecute.Run(env, decode, w)
  }

  /** A configured orchestrator wins over the default, so a configured
      plan-and-execute turn is the plan-and-execute run on the extended
      history whatever default is registered. */
  lemma ConfiguredOrchestratorWins(env: Env, decode: PlanParse.PlanDecoder, a: Option<Agent.Orchestrator>,
                                   b: Option<Agent.Orchestrator>, s: AgentStates.AgentState, user: Message, fuel: nat)
    requires EnvOk(env) && user.UserMessage? && env.cfg.orchestrator == Some(Agent.PlanAndExecute)
    ensures Prompt(env, decode, a, s, user, fuel) == Prompt(env, decode, b, s, user, fuel)
            == PlanExecute.Run(env, decode, Start(s, user))
  {
  }
}
