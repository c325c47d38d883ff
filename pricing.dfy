/** The pricing page (src/pages/PricingPage.tsx): its own `loading` flag,
    the subscribe handler that activates through the membership context and
    then navigates or alerts, and what the page renders. */
module Pricing {
  import opened Common
  import MembershipClient
  import Server = Membership
  import Routes

  const AlertPrefix: string := "Error al activar la suscripción: "
  const AlertFallback: string := "Intente nuevamente"
  const BuyLabel: string := "Comprar Ahora"
  const BusyLabel: string := "Procesando..."

  /** The alert shown for an error with `message` (`message || fallback`). */
  function AlertText(message: string): (r: string)
    ensures |r| > |AlertPrefix| && r[..|AlertPrefix|] == AlertPrefix
    ensures message != "" ==> r[|AlertPrefix|..] == message
    ensures message == "" ==> r[|AlertPrefix|..] == AlertFallback
  {
    AlertPrefix + (if message == "" then AlertFallback else message)
  }

  /** What the page shows below the plan. */
  datatype Offer =
    | Spinner                                   // the whole page while the session loads
    | BuyButton(caption: string, disabled: bool)  // signed-in users
    | SignInLinks                               // links to `/login` and `/register`

  function OfferView(authLoading: bool, isAuthenticated: bool, loading: bool): Offer {
    if authLoading then Spinner
    else if isAuthenticated then BuyButton(if loading then BusyLabel else BuyLabel, loading)
    else SignInLinks
  }

  /** Only a spinner while the session loads; the buy button exactly for
      signed-in users, disabled and relabelled while a purchase runs. */
  lemma OfferViewSpec(authLoading: bool, isAuthenticated: bool, loading: bool)
    ensures OfferView(authLoading, isAuthenticated, loading) == Spinner <==> authLoading
    ensures OfferView(authLoading, isAuthenticated, loading).BuyButton? <==> !authLoading && isAuthenticated
    ensures OfferView(authLoading, isAuthenticated, loading).BuyButton? ==>
      OfferView(authLoading, isAuthenticated, loading).disabled == loading
  {
  }

  class PricingPage {
    var loading: bool

    constructor()
      ensures !loading
    {
      loading := false;
    }

    /** `handleSubscribe`. Without a user it goes to `/register` and makes no
        activation. Otherwise it activates the annual plan; if that returns
        it goes to `/app`, if it throws it alerts and stays. `loading` is
        false afterwards. */
    method Subscribe(user: Option<MembershipClient.UserId>, context: MembershipClient.MembershipContext,
                     table: MembershipClient.HostedTable, nowIso: string, freshId: string,
                     fault: Option<MembershipClient.DbError>, refreshFault: Option<MembershipClient.DbError>)
      returns (navigateTo: Option<string>, alert: Option<string>)
      modifies this, context, table
      ensures user.None? ==>
        navigateTo == Some(Routes.RegisterPath) && alert.None? && loading == old(loading)
        && context.membership == old(context.membership) && table.rows == old(table.rows)
      ensures user.Some? ==> !loading
      ensures user.Some? && fault.None? ==>
        navigateTo == Some(Routes.AppPath) && alert.None? && context.IsMember()
        && table.rows == MembershipClient.Upsert(old(table.rows),
             MembershipClient.PayloadFor(user.value, Server.DefaultPlan, nowIso), freshId)
      ensures user.Some? && fault.Some? && fault.value.code == MembershipClient.UniqueViolation ==>
        navigateTo == Some(Routes.AppPath) && alert.None? && table.rows == old(table.rows)
      ensures user.Some? && fault.Some? && fault.value.code != MembershipClient.UniqueViolation ==>
        navigateTo.None? && alert == Some(AlertText(fault.value.message))
        && context.membership == old(context.membership) && table.rows == old(table.rows)
    {
      if user.None? {
        return Some(Routes.RegisterPath), None;
      }
      loading := true;
      var outcome := context.Activate(user, Some(Server.DefaultPlan), nowIso, table, freshId, fault, refreshFault);
      if outcome.Done? {
        navigateTo, alert := Some(Routes.AppPath), None;
      } else {
        navigateTo, alert := None, Some(AlertText(outcome.message));
      }
      loading := false;
    }
  }
}
