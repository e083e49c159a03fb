/**
 * The paid resource handler of retail_context/service.py: admission, then payment, then claim and delivery, per
 * request.
 */
module PaidService {
  import opened Wrappers
  import opened RetailPayment
  import opened RetailLedger
  import Gate = AdmissionProtocol
  import Desk = DeliveryProtocol
  import AdmissionRuns
  import DeliveryRuns

  datatype Config = Config(gate: Gate.Config, wallet: Option<string>, maxBytes: nat)

  /** Both protocols side by side; a handler has the same number in each. */
  datatype Service = Service(gate: Gate.System, desk: Desk.System)

  datatype Action =
    | AtGate(gate: Gate.Action)
    | AtDesk(desk: Desk.Action)
    | Serve(id: nat, payload: Payload, verify: VerifyReply, settle: SettleReply)

  /** The order of the handler: only an admitted request that carries payment reaches the payment loop and the desk. */
  predicate MayServe(cfg: Config, s: Service, id: nat) {
    id in s.gate.workers && s.gate.workers[id].pc.Passed? && s.gate.workers[id].job.paid &&
    Asked(cfg, s.gate.workers[id].job.prepared).Ok?
  }

  function Asked(cfg: Config, p: Prepared): Result<Requirement, string> {
    BuildRequirement(p.resourceType, p.ResourceUri(), cfg.wallet)
  }

  function SpawnFor(cfg: Config, s: Service, a: Action): Desk.Action
    requires a.Serve? && MayServe(cfg, s, a.id)
  {
    var j := s.gate.workers[a.id].job;
    Desk.Spawn(a.id, Desk.Purchase(Asked(cfg, j.prepared).value, a.payload, a.verify, a.settle), j.prepared, j.at,
      cfg.maxBytes)
  }

  function Step(cfg: Config, s: Service, a: Action): Service {
    match a
    case AtGate(g) =>
      var desk := if g.SetMode? then Desk.Step(s.desk, Desk.SetMode(g.mode)) else s.desk;
      Service(Gate.Step(cfg.gate, s.gate, g), desk)
    case AtDesk(d) => if d.Spawn? || d.SetMode? then s else s.(desk := Desk.Step(s.desk, d))
    case Serve(id, _, _, _) => if MayServe(cfg, s, id) then s.(desk := Desk.Step(s.desk, SpawnFor(cfg, s, a))) else s
  }

  function Start(mode: Mode): Service { Service(Gate.Start(mode), Desk.Start(mode)) }

  /** The state of a run after its first i steps. */
  ghost function Moment(t: seq<Service>, i: int): Service
    requires 0 <= i < |t|
  {
    t[i]
  }

  ghost predicate Follows(cfg: Config, s: Service, u: Service) { u == s || exists a :: u == Step(cfg, s, a) }

  ghost predicate IsRun(cfg: Config, t: seq<Service>) {
    t != [] && (exists mode :: t[0] == Start(mode)) &&
    forall i {:trigger Moment(t, i)} :: 0 <= i < |t| - 1 ==> Follows(cfg, Moment(t, i), t[i + 1])
  }

  // ---- each half runs its own protocol ----

  ghost function Gates(t: seq<Service>): seq<Gate.System> { seq(|t|, i requires 0 <= i < |t| => t[i].gate) }

  ghost function Desks(t: seq<Service>): seq<Desk.System> { seq(|t|, i requires 0 <= i < |t| => t[i].desk) }

  lemma HalvesFollow(cfg: Config, s: Service, u: Service)
    requires Follows(cfg, s, u)
    ensures Gate.Follows(cfg.gate, s.gate, u.gate) && Desk.Follows(s.desk, u.desk)
  {
    hide Gate.Step, Desk.Step, SpawnFor, MayServe;
  }

  lemma RunNext(cfg: Config, t: seq<Service>, n: nat)
    requires IsRun(cfg, t) && n + 1 < |t|
    ensures Follows(cfg, t[n], t[n + 1])
  {
    hide Step, Start;
    assert Moment(t, n) == t[n];
  }

  lemma HalvesRun(cfg: Config, t: seq<Service>)
    requires IsRun(cfg, t)
    ensures Gate.IsRun(cfg.gate, Gates(t)) && Desk.IsRun(Desks(t))
  {
    hide Step, Follows, Gate.Follows, Desk.Follows, Gate.Start, Desk.Start;
    var mode :| t[0] == Start(mode);
    assert Gates(t)[0] == Gate.Start(mode) && Desks(t)[0] == Desk.Start(mode);
    forall i | 0 <= i < |t| - 1
      ensures Gate.Follows(cfg.gate, Gate.Moment(Gates(t), i), Gates(t)[i + 1]) &&
              Desk.Follows(Desk.Moment(Desks(t), i), Desks(t)[i + 1]) {
      RunNext(cfg, t, i);
      HalvesFollow(cfg, t[i], t[i + 1]);
    }
  }

  // ---- the desk serves only what the gate has passed ----

  ghost predicate Served(cfg: Config, s: Service, id: nat)
    requires id in s.desk.workers
  {
    var j := s.desk.workers[id].job;
    id in s.gate.workers && s.gate.workers[id].pc.Passed? && s.gate.workers[id].job.paid &&
    s.gate.workers[id].job.prepared == j.prepared && s.gate.workers[id].job.at == j.at &&
    j.payment.Purchase? && Asked(cfg, j.prepared) == Ok(j.payment.requirement)
  }

  ghost predicate AllServed(cfg: Config, s: Service) {
    forall id :: id in s.desk.workers ==> Served(cfg, s, id)
  }

  lemma PassStays(cfg: Gate.Config, s: Gate.System, a: Gate.Action, id: nat)
    requires id in s.workers && s.workers[id].pc.Passed?
    ensures id in Gate.Step(cfg, s, a).workers && Gate.Step(cfg, s, a).workers[id] == s.workers[id]
  {
    hide Gate.Logged, Gate.Look, Gate.AfterMode, Gate.RateCharge, Gate.AttemptCharge, Gate.BindingCharge;
  }

  lemma JobStays(s: Desk.System, a: Desk.Action, id: nat)
    requires id in Desk.Step(s, a).workers
    ensures id in s.workers ==> Desk.Step(s, a).workers[id].job == s.workers[id].job
    ensures id !in s.workers ==> a.Spawn? && a.id == id && Desk.Step(s, a).workers[id].job.payment == a.payment &&
                                 Desk.Step(s, a).workers[id].job.prepared == a.prepared &&
                                 Desk.Step(s, a).workers[id].job.at == a.at
  {
    hide Desk.Advance, Desk.OutcomeOf, NoteStep, ReportStep;
  }

  lemma StepServes(cfg: Config, s: Service, a: Action)
    requires AllServed(cfg, s)
    ensures AllServed(cfg, Step(cfg, s, a))
  {
    hide Gate.Step, Desk.Step, Asked;
    var t := Step(cfg, s, a);
    forall id | id in t.desk.workers ensures Served(cfg, t, id) {
      var d := if a.AtGate? && a.gate.SetMode? then Desk.SetMode(a.gate.mode)
               else if a.AtDesk? then a.desk
               else if a.Serve? && MayServe(cfg, s, a.id) then SpawnFor(cfg, s, a) else Desk.SetMode(s.desk.mode);
      if t.desk == Desk.Step(s.desk, d) { JobStays(s.desk, d, id); }
      if a.AtGate? && id in s.gate.workers && s.gate.workers[id].pc.Passed? { PassStays(cfg.gate, s.gate, a.gate, id); }
    }
  }

  lemma FollowsServes(cfg: Config, s: Service, u: Service)
    requires AllServed(cfg, s) && Follows(cfg, s, u)
    ensures AllServed(cfg, u)
  {
    hide Step, Served;
    if u != s {
      var a :| u == Step(cfg, s, a);
      StepServes(cfg, s, a);
    }
  }

  lemma {:induction false} RunServes(cfg: Config, t: seq<Service>, n: nat)
    requires IsRun(cfg, t) && n < |t|
    ensures AllServed(cfg, t[n])
  {
    hide Step, Served, Follows;
    if n == 0 {
    } else {
      RunServes(cfg, t, n - 1);
      RunNext(cfg, t, n - 1);
      FollowsServes(cfg, t[n - 1], t[n]);
    }
  }

  /**
   * Every resource the service returns: its handler was admitted and charged exactly once for itself; its own payment
   * was verified and settled in full for the terms built for this very request; and the claim row it was returned on
   * holds exactly its content.
   */
  lemma ReturnedResource(cfg: Config, t: seq<Service>, n: nat, id: nat)
    requires IsRun(cfg, t) && n < |t| && id in t[n].desk.workers && t[n].desk.workers[id].pc.Returned?
    ensures id in t[n].gate.workers && t[n].gate.workers[id].pc.Passed? &&
            Gate.CountOf(t[n].gate.log, Gate.ChargesTo(id)) == 1 &&
            AdmissionRuns.OwnCharge(cfg.gate, t[n].gate.workers[id].job, t[n].gate.workers[id].pc.charge)
    ensures var w := t[n].desk.workers[id];
            w.job.payment.Purchase? &&
            PaidFor(w.job.payment.requirement, w.job.payment.payload, w.job.payment.verify, w.job.payment.settle) &&
            Asked(cfg, w.job.prepared) == Ok(w.job.payment.requirement)
    ensures var w := t[n].desk.workers[id];
            w.pc.cap.claimId in t[n].desk.ledger.claims &&
            Desk.SameContent(t[n].desk.ledger.claims[w.pc.cap.claimId].delivery, w.pc.resource.body)
  {
    hide IsRun, Gate.IsRun, Desk.IsRun, Gate.CountOf, AdmissionRuns.OwnCharge, PaidFor, Asked;
    HalvesRun(cfg, t);
    RunServes(cfg, t, n);
    assert Served(cfg, t[n], id);
    AdmissionRuns.PassIsChargedOnce(cfg.gate, Gates(t), n, id);
    DeliveryRuns.ReturnedWasPaidFor(Desks(t), n, id, t[n].desk.workers[id].pc.cap.claimId);
    DeliveryRuns.ReturnedMatchesRow(Desks(t), n, id, t[n].desk.workers[id].pc.cap.claimId);
  }

  /**
   * The rate slots behind the resources returned to one subject: one each, numbered differently, all within the
   * limit.
   */
  lemma ReturnedSlotsAreOwn(cfg: Config, t: seq<Service>, n: nat, i: nat, k: nat)
    requires IsRun(cfg, t) && n < |t|
    requires var w := t[n].desk.workers; i in w && k in w && i != k && w[i].pc.Returned? && w[k].pc.Returned?
    ensures i in t[n].gate.workers && k in t[n].gate.workers && t[n].gate.workers[i].pc.Passed? &&
            t[n].gate.workers[k].pc.Passed? &&
            var c, e := t[n].gate.workers[i].pc.charge, t[n].gate.workers[k].pc.charge;
            (c.RateSlot? && e.RateSlot? && c.key == e.key ==> c.number != e.number) &&
            (c.RateSlot? ==>
              1 <= c.number <= AdmissionRuns.MostSlots(cfg.gate, t[n].desk.workers[i].job.prepared.resourceType))
  {
    hide IsRun, Gate.IsRun, Desk.IsRun, Gate.CountOf, Asked, AdmissionRuns.MostSlots;
    HalvesRun(cfg, t);
    RunServes(cfg, t, n);
    assert Served(cfg, t[n], i) && Served(cfg, t[n], k);
    AdmissionRuns.PassIsChargedOnce(cfg.gate, Gates(t), n, i);
    if t[n].gate.workers[i].pc.charge.RateSlot? && t[n].gate.workers[k].pc.charge.RateSlot? {
      AdmissionRuns.SlotsAreOwn(cfg.gate, Gates(t), n, i, k);
    }
  }
}
