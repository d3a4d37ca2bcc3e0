/** The credit-spending server actions (`src/app/actions/credits.ts`).

    They call `getUserProfile`, `hasEnoughCredits`, `deductCredits`,
    `updateUserPlan` and `CREDIT_COSTS` from `@/lib/credits`, whose shipped
    version defines none of them; they are therefore a `Service` given as a
    parameter, whose members answer each call. Each action also returns the
    calls it made, in order, so the check-then-deduct pattern can be stated. */
module CreditActions {

  import opened Common

  /** What the object-returning `deductCredits` answers. */
  datatype DeductReply = DeductReply(success: bool, remainingCredits: int, error: Option<string>)

  datatype UpdateReply = UpdateReply(success: bool, error: Option<string>)

  /** A profile as `getUserProfile` returns it; the actions pass it through. */
  datatype Profile = Profile(id: string, email: string, plan: string, credits: int)

  datatype Service = Service(
    hasEnoughCredits: (string, int) -> bool,
    deductCredits: (string, int) -> DeductReply,
    getUserProfile: string -> Option<Profile>,
    updateUserPlan: (string, string) -> UpdateReply)

  /** `CREDIT_COSTS.transcription_short`, `.transcription_long` and `.summary`. */
  datatype ActionCosts = ActionCosts(transcriptionShort: int, transcriptionLong: int, summary: int)

  /** A call made to the credits service. */
  datatype Call = HasEnoughCredits(userId: string, cost: int) | DeductCredits(userId: string, cost: int)

  datatype SpendResult = Spent(remainingCredits: int) | SpendFailed(error: Option<string>)

  const InsufficientCredits := "Créditos insuficientes"

  /** Every deduction in `calls` comes right after a check of the same user
      and cost that the service answered with true. */
  predicate DeductsOnlyAfterPassingCheck(service: Service, calls: seq<Call>) {
    forall i :: 0 <= i < |calls| && calls[i].DeductCredits? ==>
      i > 0 && calls[i - 1] == HasEnoughCredits(calls[i].userId, calls[i].cost)
      && service.hasEnoughCredits(calls[i].userId, calls[i].cost)
  }

  /** The body shared by `useTranscriptionShort`, `useTranscriptionLong` and
      `useSummary`: check, then deduct the same cost. */
  method CheckThenDeduct(service: Service, userId: string, cost: int) returns (result: SpendResult, calls: seq<Call>)
    ensures DeductsOnlyAfterPassingCheck(service, calls)
    ensures |calls| >= 1 && calls[0] == HasEnoughCredits(userId, cost)
    ensures !service.hasEnoughCredits(userId, cost) ==>
      result == SpendFailed(Some(InsufficientCredits)) && calls == [HasEnoughCredits(userId, cost)]
    ensures service.hasEnoughCredits(userId, cost) ==>
      calls == [HasEnoughCredits(userId, cost), DeductCredits(userId, cost)]
    ensures result.Spent? <==> service.hasEnoughCredits(userId, cost) && service.deductCredits(userId, cost).success
    ensures result.Spent? ==> result.remainingCredits == service.deductCredits(userId, cost).remainingCredits
    ensures service.hasEnoughCredits(userId, cost) && !service.deductCredits(userId, cost).success ==>
      result == SpendFailed(service.deductCredits(userId, cost).error)
  {
    calls := [HasEnoughCredits(userId, cost)];
    var hasCredits := service.hasEnoughCredits(userId, cost);
    if !hasCredits {
      return SpendFailed(Some(InsufficientCredits)), calls;
    }
    calls := calls + [DeductCredits(userId, cost)];
    var reply := service.deductCredits(userId, cost);
    if !reply.success {
      return SpendFailed(reply.error), calls;
    }
    result := Spent(reply.remainingCredits);
  }

  /** `useTranscriptionShort`. */
  method UseTranscriptionShort(service: Service, costs: ActionCosts, userId: string) returns (result: SpendResult, calls: seq<Call>)
    ensures DeductsOnlyAfterPassingCheck(service, calls)
    ensures forall c :: c in calls ==> c.userId == userId && c.cost == costs.transcriptionShort
    ensures result.Spent? <==> service.hasEnoughCredits(userId, costs.transcriptionShort)
                               && service.deductCredits(userId, costs.transcriptionShort).success
  {
    result, calls := CheckThenDeduct(service, userId, costs.transcriptionShort);
  }

  /** `useTranscriptionLong`. */
  method UseTranscriptionLong(service: Service, costs: ActionCosts, userId: string) returns (result: SpendResult, calls: seq<Call>)
    ensures DeductsOnlyAfterPassingCheck(service, calls)
    ensures forall c :: c in calls ==> c.userId == userId && c.cost == costs.transcriptionLong
    ensures result.Spent? <==> service.hasEnoughCredits(userId, costs.transcriptionLong)
                               && service.deductCredits(userId, costs.transcriptionLong).success
  {
    result, calls := CheckThenDeduct(service, userId, costs.transcriptionLong);
  }

  /** `useSummary`. */
  method UseSummary(service: Service, costs: ActionCosts, userId: string) returns (result: SpendResult, calls: seq<Call>)
    ensures DeductsOnlyAfterPassingCheck(service, calls)
    ensures forall c :: c in calls ==> c.userId == userId && c.cost == costs.summary
    ensures result.Spent? <==> service.hasEnoughCredits(userId, costs.summary)
                               && service.deductCredits(userId, costs.summary).success
  {
    result, calls := CheckThenDeduct(service, userId, costs.summary);
  }

  datatype ProfileResult = ProfileFound(profile: Profile) | ProfileMissing(error: string)

  /** `fetchUserProfile`: the profile unchanged, or 'Perfil não encontrado'. */
  function FetchUserProfile(service: Service, userId: string): (r: ProfileResult)
    ensures r.ProfileFound? <==> service.getUserProfile(userId).Some?
    ensures r.ProfileFound? ==> r.profile == service.getUserProfile(userId).value
    ensures r.ProfileMissing? ==> r.error == "Perfil não encontrado"
  {
    match service.getUserProfile(userId)
    case None => ProfileMissing("Perfil não encontrado")
    case Some(profile) => ProfileFound(profile)
  }

  // ---------------------------------------------------------------------
  // upgradePlan

  /** `toUpperCase` on one ASCII character. */
  function UpperChar(c: char): (u: char)
    ensures 'a' <= c <= 'z' ==> 'A' <= u <= 'Z'
    ensures !('a' <= c <= 'z') ==> u == c
  {
    if 'a' <= c <= 'z' then (c as int - 'a' as int + 'A' as int) as char else c
  }

  /** `toUpperCase` on an ASCII string. */
  function ToUpper(s: string): (u: string)
    ensures |u| == |s|
    ensures forall i :: 0 <= i < |s| ==> u[i] == UpperChar(s[i])
  {
    if s == [] then [] else [UpperChar(s[0])] + ToUpper(s[1..])
  }

  /** Upper-casing leaves no lower-case ASCII letter and is idempotent. */
  lemma ToUpperIdempotent(s: string)
    ensures forall i :: 0 <= i < |ToUpper(s)| ==> !('a' <= ToUpper(s)[i] <= 'z')
    ensures ToUpper(ToUpper(s)) == ToUpper(s)
  {
    var u := ToUpper(s);
    assert forall i :: 0 <= i < |u| ==> ToUpper(u)[i] == u[i];
  }

  datatype UpgradeResult = Upgraded(message: string) | UpgradeFailed(error: Option<string>)

  function UpgradedMessage(plan: string): string {
    "Plano atualizado para " + ToUpper(plan) + " com sucesso!"
  }

  /** `upgradePlan`: the service's failure is passed on; success names the plan upper-cased. */
  function UpgradePlan(service: Service, userId: string, plan: string): (r: UpgradeResult)
    ensures r.Upgraded? <==> service.updateUserPlan(userId, plan).success
    ensures r.UpgradeFailed? ==> r.error == service.updateUserPlan(userId, plan).error
    ensures r.Upgraded? ==> r.message == UpgradedMessage(plan)
  {
    var reply := service.updateUserPlan(userId, plan);
    if !reply.success then UpgradeFailed(reply.error) else Upgraded(UpgradedMessage(plan))
  }

  /** The success message of an upgrade to `premium`. */
  lemma UpgradeToPremiumMessage()
    ensures UpgradedMessage("premium") == "Plano atualizado para PREMIUM com sucesso!"
  {
    assert ToUpper("premium") == "PREMIUM";
  }
}
