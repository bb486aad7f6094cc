/** NATS subjects of triage messages (services/_runtime/nats_broker.py) and the two parsers that take
    them apart again: the worker's and the web tier's fan-out. */
module Subjects {
  import opened Strings

  datatype Option<+T> = None | Some(value: T)

  function Dotted(a: string, rest: string): string { a + "." + rest }

  function CancelSubject(tenant: string, alert: string): string {
    Dotted("triage", Dotted("cancel", Dotted("v1", Dotted(tenant, alert))))
  }

  function EventSubject(tenant: string, alert: string, phase: string): string {
    Dotted("triage", Dotted("events", Dotted("v1", Dotted(tenant, Dotted(alert, phase)))))
  }

  /** _alert_id_from_subject of the worker. */
  function AlertIdFromSubject(subject: string): Option<string> {
    var parts := Split(subject, '.');
    if |parts| >= 5 && parts[0] == "triage" && parts[1] == "cancel" then Some(parts[|parts| - 1]) else None
  }

  /** extractTenantAlertFromSubject of the fan-out. */
  function ExtractTenantAlert(subject: string): Option<(string, string)> {
    var parts := Split(subject, '.');
    if |parts| < 5 then None
    else if parts[0] == "triage" && parts[1] in {"events", "cancel"} && parts[2] == "v1" then Some((parts[3], parts[4]))
    else None
  }

  lemma SplitHead(a: string, rest: string)
    requires '.' !in a
    ensures Split(Dotted(a, rest), '.') == [a] + Split(rest, '.')
  {
    SplitFirst(a, '.', rest);
    assert Dotted(a, rest) == a + ['.'] + rest;
  }

  /** The first three parts, and whatever the rest splits into. */
  lemma SplitThree(a: string, b: string, c: string, rest: string)
    requires '.' !in a && '.' !in b && '.' !in c
    ensures Split(Dotted(a, Dotted(b, Dotted(c, rest))), '.') == [a, b, c] + Split(rest, '.')
  {
    SplitHead(c, rest);
    SplitHead(b, Dotted(c, rest));
    SplitHead(a, Dotted(b, Dotted(c, rest)));
  }

  lemma CancelParts(tenant: string, alert: string)
    requires '.' !in tenant
    ensures Split(CancelSubject(tenant, alert), '.') == ["triage", "cancel", "v1", tenant] + Split(alert, '.')
  {
    SplitHead(tenant, alert);
    SplitThree("triage", "cancel", "v1", Dotted(tenant, alert));
  }

  lemma EventParts(tenant: string, alert: string, phase: string)
    requires '.' !in tenant && '.' !in alert
    ensures Split(EventSubject(tenant, alert, phase), '.')
        == ["triage", "events", "v1", tenant, alert] + Split(phase, '.')
  {
    SplitHead(alert, phase);
    SplitHead(tenant, Dotted(alert, phase));
    SplitThree("triage", "events", "v1", Dotted(tenant, Dotted(alert, phase)));
  }

  /** Both parsers give back the alert of a cancel subject exactly when it has no dot. */
  lemma CancelRoundTripIff(tenant: string, alert: string)
    requires '.' !in tenant
    ensures AlertIdFromSubject(CancelSubject(tenant, alert)) == Some(alert) <==> '.' !in alert
    ensures ExtractTenantAlert(CancelSubject(tenant, alert)) == Some((tenant, alert)) <==> '.' !in alert
  {
    CancelParts(tenant, alert);
    PartsAreClean(alert, '.');
    var parts, tail := Split(CancelSubject(tenant, alert), '.'), Split(alert, '.');
    assert parts[|parts| - 1] == tail[|tail| - 1] && parts[4] == tail[0];
    assert tail[|tail| - 1] in tail && tail[0] in tail;
    if '.' !in alert { SplitWhole(alert, '.'); }
  }

  lemma EventRoundTrip(tenant: string, alert: string, phase: string)
    requires '.' !in tenant && '.' !in alert
    ensures ExtractTenantAlert(EventSubject(tenant, alert, phase)) == Some((tenant, alert))
  {
    EventParts(tenant, alert, phase);
  }

  /** The worker takes no event for a cancel, and the fan-out tells neither apart by its phase. */
  lemma EventsAreNotCancels(tenant: string, alert: string, phase: string)
    requires '.' !in tenant && '.' !in alert
    ensures AlertIdFromSubject(EventSubject(tenant, alert, phase)) == None
  {
    EventParts(tenant, alert, phase);
  }

  /** A subject of fewer than five parts, or of another service or version, names no alert. */
  lemma ForeignSubjects(a: string, b: string, c: string, rest: string)
    requires '.' !in a && '.' !in b && '.' !in c
    ensures var s := Dotted(a, Dotted(b, Dotted(c, rest)));
            && (a != "triage" || b != "cancel" ==> AlertIdFromSubject(s) == None)
            && (a != "triage" || (b != "events" && b != "cancel") || c != "v1" ==> ExtractTenantAlert(s) == None)
            && ('.' !in rest ==> AlertIdFromSubject(s) == None && ExtractTenantAlert(s) == None)
  {
    SplitThree(a, b, c, rest);
    if '.' !in rest { SplitWhole(rest, '.'); }
  }
}
