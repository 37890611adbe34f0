/** When client and gateway agree on what the client is subscribed to. */
module RealtimeAgreement {
  import opened Common
  import opened Realtime
  import opened GatewayRuns
  import opened P = RealtimeProtocol
  import opened RealtimeSteps

  ghost predicate AgreesAt(cfg: Setting, steps: seq<Step>, n: nat) {
    n <= |steps| ==> AgreesNow(cfg, P.After(cfg, steps[..n]))
  }

  ghost predicate StepFitsAt(cfg: Setting, steps: seq<Step>, n: nat) {
    n < |steps| ==> StepFits(cfg, P.After(cfg, steps[..n]), steps[n])
  }

  ghost predicate NoneOvertakes(cfg: Setting, steps: seq<Step>) {
    forall n: nat {:trigger StepFitsAt(cfg, steps, n)} :: StepFitsAt(cfg, steps, n)
  }

  lemma AfterOne(cfg: Setting, steps: seq<Step>, n: nat)
    requires n < |steps|
    ensures P.After(cfg, steps[..n + 1]) == Proceed(cfg, P.After(cfg, steps[..n]), steps[n])
  {
    assert steps[..n + 1][..n] == steps[..n];
  }

  lemma {:induction false} FittingStepsAgree(cfg: Setting, steps: seq<Step>, n: nat)
    requires OneIdPerState(cfg.mappings) && NoneOvertakes(cfg, steps) && n <= |steps|
    ensures AgreesNow(cfg, P.After(cfg, steps[..n]))
  {
    if n > 0 {
      var m := n - 1;
      FittingStepsAgree(cfg, steps, m);
      ServerAlwaysOk(cfg, steps[..m]);
      AfterOne(cfg, steps, m);
      assert StepFitsAt(cfg, steps, m);
      StepAgreesIff(cfg, P.After(cfg, steps[..m]), steps[m]);
    }
  }

  /** Over every run, with messages dropped before authentication, late and repeated auth_oks, sockets that
      break and handlers suspended and failing at their awaits: all that is to come brings the server's
      side of the current socket to what the client wants, at every moment, if and only if no stretch
      overtakes an earlier message on an id and no failing handler leaves one undone. */
  lemma {:induction false} SubscriptionsAgreeIff(cfg: Setting, steps: seq<Step>)
    requires OneIdPerState(cfg.mappings)
    ensures (forall n: nat {:trigger AgreesAt(cfg, steps, n)} :: AgreesAt(cfg, steps, n)) <==> NoneOvertakes(cfg, steps)
  {
    if NoneOvertakes(cfg, steps) {
      forall n: nat ensures AgreesAt(cfg, steps, n) {
        if n <= |steps| {
          FittingStepsAgree(cfg, steps, n);
        }
      }
    }
    if forall n: nat {:trigger AgreesAt(cfg, steps, n)} :: AgreesAt(cfg, steps, n) {
      forall n: nat ensures StepFitsAt(cfg, steps, n) {
        if n < |steps| {
          var next := n + 1;
          assert AgreesAt(cfg, steps, n) && AgreesAt(cfg, steps, next);
          ServerAlwaysOk(cfg, steps[..n]);
          AfterOne(cfg, steps, n);
          StepAgreesIff(cfg, P.After(cfg, steps[..n]), steps[n]);
        }
      }
    }
  }

  ghost predicate Greeted(w: World, k: ConnId) {
    IsCurrent(w, k) && w.greeted
  }

  /** Once auth_ok has been seen on the current socket of such a run, what is still to come brings the
      server's subscriptions to exactly the wanted ids that may be read. */
  lemma {:induction false} SubscriptionsAgree(cfg: Setting, steps: seq<Step>, k: ConnId)
    requires OneIdPerState(cfg.mappings) && NoneOvertakes(cfg, steps) && Greeted(P.After(cfg, steps), k)
    ensures Settled(cfg, P.After(cfg, steps), k).ids == P.After(cfg, steps).wanted * ReadableIds(cfg)
  {
    FittingStepsAgree(cfg, steps, |steps|);
    assert steps[..|steps|] == steps;
  }
}
