/** The campaign under the eyes of the auditor: its operators leave a log that is assessed clean, within the budget. */
module CampaignAudit {
  import opened Wrappers
  import opened JsonPatch
  import opened DurableContract
  import opened Journal
  import opened Protocol
  import opened Auditor
  import opened AuditAgreement
  import Campaign

  lemma PolicyAudits(actions: seq<Action>, policy: Policy, namespace: string, legacyOnly: bool)
    requires Campaign.AllUnderPolicy(actions, policy) && AuditedPolicy(policy, namespace, legacyOnly)
    ensures AuditedClaims(actions, namespace, legacyOnly)
  {
    forall k | 0 <= k < |actions| && actions[k].Claim?
      ensures AuditedPolicy(actions[k].policy, namespace, legacyOnly)
    {
      assert Campaign.UnderPolicy(actions[k], policy);
    }
  }

  /**
    Whatever the operators of a campaign on the audited Service do, and wherever they die: the assessment
    finds nothing unmatched, repeated or missing, correlates exactly what took effect, and what took effect
    is within the limits of the campaign.
   */
  lemma CampaignsAreClean(service: Json, version: string, deeds: seq<Campaign.Deed>, limit: nat, policy: Policy,
                          events: seq<AuditEvent>, ops: seq<Operation>, window: Window, malformed: nat,
                          bindings: Option<map<string, Binding>>, legacyOnly: bool)
    requires Text(service, VERSION) == Some(version) && policy.maxDispatches >= 0
    requires Campaign.DeedsUnderPolicy(deeds, policy) && AuditedPolicy(policy, window.namespace, legacyOnly)
    requires var w := Campaign.History(Campaign.Campaign(Initial(service, version), None, {}), deeds, limit).world;
             Shows(events, w, window) && Lists(ops, w) && Given(bindings, w, legacyOnly)
    ensures var w := Campaign.History(Campaign.Campaign(Initial(service, version), None, {}), deeds, limit).world;
            var r := Assessed(events, ops, window, malformed, bindings);
            && r.violating == [] && r.missing == []
            && (r.status.IncompleteAudit? <==> malformed > 0)
            && (forall id :: id in Ids(r.correlated) <==> id in w.effects)
            && |w.effects| <= policy.maxDispatches
  {
    var c := Campaign.Campaign(Initial(service, version), None, {});
    var actions := Campaign.CampaignIsARun(c, deeds, limit, policy);
    PolicyAudits(actions, policy, window.namespace, legacyOnly);
    Campaign.CampaignBudget(service, version, deeds, limit, policy);
    var w := Campaign.History(c, deeds, limit).world;
    BrokerRunsAreClean(service, version, actions, w, events, ops, window, malformed, bindings, legacyOnly);
  }
}
