/** The self-described action that adds an agent to the world and then
    translates it, issuing both sub-actions through the performer that
    performs it. */
module AddAndTranslate {
  import opened Wrappers
  import opened Geometry
  import opened Actions
  import opened Engines

  const UndoableAddition: string := "ActionException: Undoable addition"

  /** AddAndTranslateAgent(agent, translation).perform(performer, caller). */
  method Perform(agent: AgentId, translation: Point, performer: Engine, caller: Option<AgentId>)
    returns (r: Result<AgentId>)
    modifies performer
    ensures performer.t == old(performer.t)
    ensures var added := performer.respond(old(performer.history), AddAgent(agent));
      match added
      case Some(AgentValue(a)) =>
        r == Ok(a) &&
        performer.history == old(performer.history) +
          [Performed(AddAgent(agent), caller), Performed(TranslateAgent(a, translation), caller)]
      case _ =>
        r == Err(UndoableAddition) &&
        performer.history == old(performer.history) + [Performed(AddAgent(agent), caller)]
  {
    var added := performer.Perform(AddAgent(agent), caller);
    if !(added.Some? && added.value.AgentValue?) {
      return Err(UndoableAddition);
    }
    var a := added.value.agent;
    var _ := performer.Perform(TranslateAgent(a, translation), caller);
    r := Ok(a);
  }
}
