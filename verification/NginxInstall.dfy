/** Writing the edited configuration on the host, and putting everything back when the proxy refuses it. */
module NginxInstall {
  import opened Wrappers
  import opened NginxRoute

  /** What is to be written, over what, and whether the proxy must join the private network first. */
  datatype Plan = Plan(original: string, updated: string, attach: bool)

  /** How each outside step goes: the WebSocket preflight, joining the network, and the proxy's two tests and reloads. */
  datatype Answers = Answers(
    preflight: bool, joins: bool, tests: bool, reloads: bool, testsAgain: bool, reloadsAgain: bool)

  /** Installed; refused before anything was written; put back and running; put back on disk only. */
  datatype Outcome = Installed(backup: Option<string>) | Refused | Restored | RestoredOnDisk

  /** What a successful run leaves in the file, in the proxy and in the new backup. */
  predicate Changes(plan: Plan) { plan.updated != plan.original }

  class Host {
    /** The configuration file, what the proxy has loaded, its network attachment, and the private backups. */
    var file: string
    var loaded: string
    var attached: bool
    var backups: seq<string>

    /** `nginx -t` and then `nginx -s reload`; only a reload that goes through changes what is loaded. */
    method TestAndReload(tests: bool, reloads: bool) returns (ok: bool)
      modifies this`loaded
      ensures ok == (tests && reloads)
      ensures loaded == if ok then file else old(loaded)
    {
      if !tests { return false; }
      if !reloads { return false; }
      loaded := file;
      return true;
    }

    method Leave(connected: bool)
      modifies this`attached
      ensures attached == if connected then false else old(attached)
    {
      if connected { attached := false; }
    }

    /** Take the lock, check that nobody else edited the file, back it up, write, test and reload; undo all of it on a refusal. */
    method ApplyPlan(plan: Plan, answers: Answers, connectNetwork: bool) returns (outcome: Outcome)
      modifies this
      ensures outcome.Installed? <==>
                answers.preflight && (plan.attach ==> connectNetwork && answers.joins && !old(attached)) && old(file) == plan.original
                && answers.tests && (Changes(plan) ==> answers.reloads)
      ensures outcome.Installed? ==>
                && file == plan.updated && attached == (old(attached) || plan.attach)
                && (if Changes(plan)
                    then loaded == plan.updated && backups == old(backups) + [plan.original] && outcome.backup == Some(plan.original)
                    else loaded == old(loaded) && backups == old(backups) && outcome.backup == None)
      ensures !outcome.Installed? ==> file == old(file) && attached == old(attached)
      ensures outcome.Refused? ==> loaded == old(loaded) && backups == old(backups)
      ensures outcome.Restored? ==> loaded == old(file) && backups == old(backups) + [old(file)]
      ensures outcome.RestoredOnDisk? ==> loaded == old(loaded) && backups == old(backups) + [old(file)]
      ensures old(backups) <= backups
    {
      if !answers.preflight { return Refused; }
      if plan.attach && !connectNetwork { return Refused; }
      var connected := false;
      if plan.attach {
        if !answers.joins || attached { return Refused; }
        attached, connected := true, true;
      }
      if file != plan.original {
        Leave(connected);
        return Refused;
      }
      if plan.updated == plan.original {
        if !answers.tests {
          Leave(connected);
          return Refused;
        }
        return Installed(None);
      }
      backups := backups + [plan.original];
      file := plan.updated;
      var ok := TestAndReload(answers.tests, answers.reloads);
      if ok { return Installed(Some(plan.original)); }
      file := plan.original;
      ok := TestAndReload(answers.testsAgain, answers.reloadsAgain);
      Leave(connected);
      return if ok then Restored else RestoredOnDisk;
    }
  }

  /** The plan for a file: the route rendered into it. */
  function PlanFor(text: string, domain: string, route: string, attach: bool): Option<Plan> {
    match RenderRoute(text, domain, route)
    case Some(updated) => Some(Plan(text, updated, attach))
    case None => None
  }

  /** Once installed, a plan for the same route finds nothing to write. */
  lemma ReinstallWritesNothing(text: string, domain: string, route: string, attach: bool, again: bool)
    requires OneBlock(route) && PlanFor(text, domain, route, attach).Some?
    ensures var installed := PlanFor(text, domain, route, attach).value.updated;
            var next := PlanFor(installed, domain, route, again);
            next.Some? && !Changes(next.value)
  {
    hide RenderRoute, OneBlock;
    InstallIsIdempotent(text, domain, route);
  }
}
