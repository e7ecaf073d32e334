/** The order and the hold-back of groups, told by the attributes the keys are made of. */
module ConsumerKeys {
  import opened Lifecycle
  import opened Consumer
  import opened ConsumerGroups
  import opened ConsumerResults
  import opened GroupKey

  /** attrs[i] are the attributes from which the key of the i-th dispatched message was made. */
  ghost predicate Keyed(log: seq<Entry>, attrs: seq<Attributes>, fields: seq<Bytes>) {
    |attrs| == |log| && forall i :: 0 <= i < |log| ==> log[i].msg.key == GroupKey.Join(Components(attrs[i], fields))
  }

  /** Two messages with one group id and the same values of the custom fields are handled one after the
      other, in the order of dispatch, whatever these contain. */
  lemma OrderByAttributes(cfg: Config, steps: seq<Step>, attrs: seq<Attributes>, fields: seq<Bytes>, i: nat, j: nat)
    requires cfg.Valid() && Legal(cfg, Init(cfg), steps) && cfg.mode.PerGroupID?
    requires Keyed(After(cfg, Init(cfg), steps).log, attrs, fields) && i < j < |attrs|
    requires Components(attrs[i], fields) == Components(attrs[j], fields)
    ensures var s := After(cfg, Init(cfg), steps);
            && |s.lives| == |s.log|
            && (!s.lives[j].stage.Queued? ==> s.lives[i].stage.Done?)
            && (forall a, b :: 0 <= a < |s.issued| && 0 <= b < |s.issued| && s.issued[a] == i && s.issued[b] == j ==>
                  a < b)
  {
    GroupOrder(cfg, steps, i, j);
  }

  /** A message is held back only by a failed message of its batch with its own group id and field values,
      if there is at most one custom field or its values are free of the separator. */
  lemma HeldByOwnGroup(cfg: Config, steps: seq<Step>, attrs: seq<Attributes>, fields: seq<Bytes>, j: nat)
    returns (i: nat)
    requires cfg.Valid() && Legal(cfg, Init(cfg), steps) && cfg.Ordered()
    requires var s := After(cfg, Init(cfg), steps);
             Keyed(s.log, attrs, fields) && j < |s.lives| == |s.log| && s.lives[j].stage == Done(Held)
    requires forall k :: 0 <= k < |attrs| ==> Clean(attrs[k].groupId)
    requires |fields| <= 1 || AllClean(Components(attrs[j], fields))
    ensures var s := After(cfg, Init(cfg), steps);
            && i < j && s.log[i].batch == s.log[j].batch && Failing(s.log[i].msg.plan)
            && Components(attrs[i], fields) == Components(attrs[j], fields)
  {
    Reachable(cfg, steps);
    i := OwnGroup(After(cfg, Init(cfg), steps).log, attrs, fields, j);
  }

  lemma OwnGroup(log: seq<Entry>, attrs: seq<Attributes>, fields: seq<Bytes>, j: nat) returns (i: nat)
    requires Keyed(log, attrs, fields) && j < |log| && Blocked(log, j) && Clean(attrs[j].groupId)
    requires forall k :: 0 <= k < |attrs| ==> Clean(attrs[k].groupId)
    requires |fields| <= 1 || AllClean(Components(attrs[j], fields))
    ensures i < j && log[i].batch == log[j].batch && Failing(log[i].msg.plan)
    ensures Components(attrs[i], fields) == Components(attrs[j], fields)
  {
    i :| i < j && GroupOf(log[i]) == GroupOf(log[j]) && Failing(log[i].msg.plan);
    IdentifiedIf(attrs[j], fields);
    assert GroupKey.Join(Components(attrs[i], fields)) == GroupKey.Join(Components(attrs[j], fields));
  }
}
