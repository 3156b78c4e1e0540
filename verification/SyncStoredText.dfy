/** The server compares an object's document with the one its last policy stored by their JSON
    texts. Stored as `jsonb`, a document comes back with its keys in another order. */
module SyncStoredText {
  import opened Wrappers
  import opened SyncTypes
  import opened SyncRules
  import opened SyncPolicies
  import CanonicalJson

  function ModeName(mode: Mode): string { if mode.TextMode? then "text" else "attachment" }

  function Quoted(text: string): string { CanonicalJson.Print(CanonicalJson.Text(text)) }

  /** A document's text as a parsed policy holds it: its generation first. */
  function ParsedText(d: Document): string {
    "{\"generation\":" + Quoted(d.generation) + ",\"mode\":" + Quoted(ModeName(d.mode)) + "}"
  }

  /** Its text as it is read back: `jsonb` orders keys by their length. */
  function StoredText(d: Document): string {
    "{\"mode\":" + Quoted(ModeName(d.mode)) + ",\"generation\":" + Quoted(d.generation) + "}"
  }

  /** The server's comparison; an absent document has no text on either side. */
  predicate SameText(prior: Option<Document>, next: Option<Document>) {
    match (prior, next)
    case (None, None) => true
    case (Some(a), Some(b)) => StoredText(a) == ParsedText(b)
    case _ => false
  }

  /** No document is found the same, not even when nothing changed. */
  lemma TextsDiffer(prior: Option<Document>, next: Document)
    ensures !SameText(prior, Some(next))
  {
    hide Quoted;
    if prior.Some? {
      assert StoredText(prior.value)[2] == 'm';
      assert ParsedText(next)[2] == 'g';
    }
  }

  /** Whether the comparison by text refuses a policy's entry. */
  predicate TextRefuses(s: State, p: Policy, t: Option<Transition>, next: PolicyObject) {
    p.version == 2 && !SameText(PriorDocument(s, next.id), next.document) && CheckpointFor(t, next.id).None?
  }

  /** The server takes an applied policy exactly when it is of version 1 or brings a checkpoint
      for every object; a version 2 policy then moves every object to the next epoch. */
  lemma TextTakes(h: Codec, s: State, actor: Actor, p: Policy, t: Option<Transition>)
    requires Accepted(h, s, actor, p, t)
    ensures (forall e <- p.objects :: !TextRefuses(s, p, t, e)) <==>
      p.version == 1 || forall e <- p.objects :: CheckpointFor(t, e.id).Some?
    ensures p.version == 2 && (forall e <- p.objects :: !TextRefuses(s, p, t, e)) ==>
      forall e <- p.objects :: e.id in s.objects && e.epoch == s.objects[e.id].epoch + 1
  {
    forall e <- p.objects
      ensures TextRefuses(s, p, t, e) <==> p.version == 2 && CheckpointFor(t, e.id).None?
      ensures p.version == 2 && CheckpointFor(t, e.id).Some? ==>
        e.id in s.objects && e.epoch == s.objects[e.id].epoch + 1
    {
      EntryRotates(h, s, actor, p, t, e);
      if p.version == 2 { TextsDiffer(PriorDocument(s, e.id), e.document.value); }
      hide Accepted, SameText, PriorDocument, CheckpointFor;
    }
    assert p.version in {1, 2};
    hide Accepted, TextRefuses, CheckpointFor;
  }

  lemma EntryRotates(h: Codec, s: State, actor: Actor, p: Policy, t: Option<Transition>, e: PolicyObject)
    requires Accepted(h, s, actor, p, t) && e in p.objects
    ensures e.id in s.objects && (p.version == 2 <==> e.document.Some?)
    ensures CheckpointFor(t, e.id).Some? ==> e.epoch == s.objects[e.id].epoch + 1
  {
    hide TransitionShape, DistinctEnvelopes, ObjectError, CheckpointFor;
    assert e.id in (set o | o in p.objects :: o.id);
    EntryPassed(s, p, t, e);
  }
}
