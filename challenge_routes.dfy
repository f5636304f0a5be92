/**
 * Challenge creation on the server (backend/challenge_routes.py): the server tier table and
 * the validation and record construction of the create route. The request body is a JSON
 * object of string fields; the generated id and the clock are parameters.
 */
module ChallengeRoutes {
  import opened Types
  import opened Wrappers
  import opened Strings
  import TradeService
  import ChallengeEvaluator

  /** One row of PLAN_CONFIGS. */
  datatype PlanConfig = PlanConfig(initialBalance: real, profitTarget: real, maxDailyLoss: real, maxTotalLoss: real)

  /** Why the route answers 400. */
  datatype CreateError =
    | MissingJson             // "Données JSON manquantes"
    | MissingFields           // "user_id et plan sont obligatoires"
    | InvalidPlan(plan: string) // "Plan invalide: {plan}", with the upper-cased plan

  /** The wire name of a tier, the key of PLAN_CONFIGS. */
  function PlanName(kind: ChallengeType): string
  {
    match kind
    case STARTER => "STARTER"
    case PRO => "PRO"
    case ELITE => "ELITE"
  }

  /** `plan in PLAN_CONFIGS`, answering the tier whose key it is. */
  function PlanKind(plan: string): (r: Option<ChallengeType>)
    ensures r.Some? ==> PlanName(r.value) == plan
    ensures forall k :: PlanName(k) == plan ==> r == Some(k)
  {
    if plan == "STARTER" then Some(STARTER)
    else if plan == "PRO" then Some(PRO)
    else if plan == "ELITE" then Some(ELITE)
    else None
  }

  /** PLAN_CONFIGS: the target and total-loss limit are 10% of the balance, the daily limit 5%. */
  function Plan(kind: ChallengeType): (cfg: PlanConfig)
    ensures cfg.initialBalance > 0.0
    ensures cfg.profitTarget == cfg.maxTotalLoss == cfg.initialBalance / 10.0
    ensures cfg.maxDailyLoss == cfg.initialBalance / 20.0
    ensures kind == STARTER ==> cfg.initialBalance == 5000.0
  {
    match kind
    case STARTER => PlanConfig(5000.0, 500.0, 250.0, 500.0)
    case PRO => PlanConfig(10000.0, 1000.0, 500.0, 1000.0)
    case ELITE => PlanConfig(25000.0, 2500.0, 1250.0, 2500.0)
  }

  /** `data.get(key)`, with a missing key read as the falsy empty string. */
  function Field(data: map<string, string>, key: string): string
  {
    if key in data then data[key] else ""
  }

  /** `data.get('user_id') or data.get('userId')`. */
  function RequestUserId(data: map<string, string>): (u: string)
    ensures Field(data, "user_id") != "" ==> u == data["user_id"]
    ensures Field(data, "user_id") == "" ==> u == Field(data, "userId")
  {
    var primary := Field(data, "user_id");
    if primary != "" then primary else Field(data, "userId")
  }

  /** The request carries a JSON object with at least one key (`not data` is false). */
  predicate HasBody(data: Option<map<string, string>>)
  {
    data.Some? && data.value != map[]
  }

  /**
   * The validation and record-building part of create_challenge. A valid request yields a
   * challenge that is ACTIVE at once, with every balance at the tier's initial balance.
   */
  function CreateChallenge(data: Option<map<string, string>>, id: string, now: Instant): (r: Result<Challenge, CreateError>)
    ensures !HasBody(data) ==> r == Failure(MissingJson)
    ensures HasBody(data) && (RequestUserId(data.value) == "" || Field(data.value, "plan") == "")
            ==> r == Failure(MissingFields)
    ensures HasBody(data) && RequestUserId(data.value) != "" && Field(data.value, "plan") != ""
            && PlanKind(Upper(data.value["plan"])).None?
            ==> r == Failure(InvalidPlan(Upper(data.value["plan"])))
    ensures r.Success? <==> HasBody(data) && RequestUserId(data.value) != "" && Field(data.value, "plan") != ""
                            && PlanKind(Upper(data.value["plan"])).Some?
    ensures r.Success? ==>
      var c := r.value;
      var cfg := Plan(c.kind);
      c.status == ACTIVE && c.id == id && c.userId == RequestUserId(data.value)
      && PlanName(c.kind) == Upper(data.value["plan"])
      && c.initialBalance == c.currentBalance == c.equity == c.maxEquity == c.dailyStartingBalance == cfg.initialBalance
      && c.profitTarget == cfg.profitTarget && c.maxDailyLossLimit == cfg.maxDailyLoss
      && c.maxTotalLossLimit == cfg.maxTotalLoss
      && c.createdAt == c.updatedAt == now
  {
    if !HasBody(data) then Failure(MissingJson)
    else
      var userId := RequestUserId(data.value);
      var plan := Field(data.value, "plan");
      if userId == "" || plan == "" then Failure(MissingFields)
      else
        var upper := Upper(plan);
        match PlanKind(upper)
        case None => Failure(InvalidPlan(upper))
        case Some(kind) =>
          var cfg := Plan(kind);
          Success(Challenge(id, userId, kind, ACTIVE,
                            cfg.initialBalance, cfg.initialBalance, cfg.initialBalance, cfg.initialBalance,
                            cfg.initialBalance, cfg.profitTarget, cfg.maxDailyLoss, cfg.maxTotalLoss, now, now))
  }

  /**
   * A freshly created challenge is in play: no rule fires on it, so the evaluator keeps it
   * ACTIVE, and any order whose cost fits the initial balance passes the guards of execute_trade.
   */
  lemma {:induction false} CreatedChallengeIsTradable(data: Option<map<string, string>>, id: string, now: Instant,
                                                    price: real, size: real)
    requires CreateChallenge(data, id, now).Success?
    ensures var c := CreateChallenge(data, id, now).value;
      !LossBreached(c) && !ProfitTargetMet(c) && ChallengeEvaluator.DeriveStatus(c) == ACTIVE
      && (price > 0.0 && price * size <= c.initialBalance ==> TradeService.Accepted(c, Some(price), size))
  {
    var c := CreateChallenge(data, id, now).value;
    var cfg := Plan(c.kind);
    assert c.initialBalance - c.equity == 0.0 < cfg.maxTotalLoss;
    assert c.dailyStartingBalance - c.equity == 0.0 < cfg.maxDailyLoss;
  }

  /** The plan is matched without regard to ASCII case, and `userId` stands in for a missing `user_id`. */
  lemma ScenarioLowerCasePlanWithAlias(id: string, now: Instant)
    ensures var r := CreateChallenge(Some(map["userId" := "trader-1", "plan" := "starter"]), id, now);
      r.Success? && r.value.kind == STARTER && r.value.userId == "trader-1" && r.value.equity == 5000.0
  {
    var data := map["userId" := "trader-1", "plan" := "starter"];
    assert "plan" in data && data != map[];
    assert Field(data, "user_id") == "";
    assert RequestUserId(data) == "trader-1";
    assert Field(data, "plan") == "starter";
    assert Upper("starter") == "STARTER";
  }

  /** An unknown plan is reported upper-cased. */
  lemma ScenarioUnknownPlan(id: string, now: Instant)
    ensures CreateChallenge(Some(map["user_id" := "u", "plan" := "gold"]), id, now) == Failure(InvalidPlan("GOLD"))
  {
    var data := map["user_id" := "u", "plan" := "gold"];
    assert "plan" in data && data != map[];
    assert RequestUserId(data) == "u";
    assert Field(data, "plan") == "gold";
    assert Upper("gold") == "GOLD";
  }
}
