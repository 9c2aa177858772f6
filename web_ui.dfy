/**
  One run of the control-panel script, top to bottom: session
  initialisation, loading and seeding the sidebar, the save button, the
  chat input and the clear button. Streamlit re-runs the script on every
  user action, against the same session state and configuration file.
 */
module WebUi {
  import opened Wrappers
  import opened Toml
  import opened ConfigMirror
  import opened ChatSession

  /** What the user did in this run: the widget values when the save button
      was pressed, the chat input, whether the agent's run raised, and
      whether the clear button was pressed. */
  datatype Interaction = Interaction(save: Option<Form>, prompt: Option<string>, agentRaises: bool, clear: bool)

  /** How the run ended: seeding the sidebar raised (and nothing after it
      ran), or the page was rendered from the seeded form. */
  datatype RunOutcome = Raised(error: SeedError) | Rendered(seeded: Form, banner: Banner)

  method RunScript(session: Session, panel: ConfigPanel, made: AgentHandle, act: Interaction)
    returns (outcome: RunOutcome)
    modifies session, panel
    ensures var s := Initialized(old(session.Snapshot()), made);
            && session.agent == s.agent
            && match Seed(old(panel.file))
               case Err(e) =>
                 && outcome == Raised(e)
                 && session.chatHistory == s.chatHistory
                 && panel.file == old(panel.file)
               case Ok(form) =>
                 && outcome == Rendered(form, if !Truthy(act.prompt) then NoBanner
                                              else if act.agentRaises then ErrorShown else TaskDone)
                 && session.chatHistory == Some(if act.clear then [] else Appended(s.chatHistory.value, act.prompt))
                 && panel.file == if act.save.Some? then ApplyForm(old(panel.file), act.save.value) else old(panel.file)
  {
    var _ := session.Init(made);
    panel.Load();
    var seeded := Seed(panel.config);
    if seeded.Err? {
      return Raised(seeded.error);
    }
    if act.save.Some? {
      panel.Save(act.save.value);
    }
    var _, banner := session.Submit(act.prompt, act.agentRaises);
    if act.clear {
      session.ClearHistory();
    }
    outcome := Rendered(seeded.form, banner);
  }
}
