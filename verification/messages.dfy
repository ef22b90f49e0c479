/**
 Message keys of the delete-confirmation prompt and the choice of the
 question shown for an entity type (`getMessage`). Translation lookup is
 left to the localisation library; only the keys are modelled.
 */
module Messages {
  import opened Wrappers

  /** The six entries of the component's message table. */
  datatype MessageKey =
    | ShouldDeleteSprite
    | ShouldDeleteCostume
    | ShouldDeleteSound
    | ConfirmOption
    | CancelOption
    | ConfirmDeletionHeading

  /** The three keys that ask whether an asset should be deleted. */
  predicate IsDeletionQuestion(k: MessageKey) {
    k.ShouldDeleteSprite? || k.ShouldDeleteCostume? || k.ShouldDeleteSound?
  }

  /** The question for an entity type: 'COSTUME' and 'SOUND' select their own
      question and every other value, undefined included, falls back to the
      sprite question. */
  function GetMessage(entityType: Option<string>): (k: MessageKey)
    ensures IsDeletionQuestion(k)
    ensures k == ShouldDeleteCostume <==> entityType == Some("COSTUME")
    ensures k == ShouldDeleteSound <==> entityType == Some("SOUND")
    ensures k == ShouldDeleteSprite <==> entityType != Some("COSTUME") && entityType != Some("SOUND")
  {
    if entityType == Some("COSTUME") then ShouldDeleteCostume
    else if entityType == Some("SOUND") then ShouldDeleteSound
    else ShouldDeleteSprite
  }

  /** An entity-type string that selects each question; the inverse of `GetMessage`
      on the three deletion questions. */
  function EntityTypeFor(k: MessageKey): (t: string)
    requires IsDeletionQuestion(k)
    ensures t in {"SPRITE", "COSTUME", "SOUND"}
  {
    match k
    case ShouldDeleteCostume => "COSTUME"
    case ShouldDeleteSound => "SOUND"
    case ShouldDeleteSprite => "SPRITE"
  }

  /** Every deletion question is reached from its own entity type. */
  lemma GetMessageRoundTrip(k: MessageKey)
    requires IsDeletionQuestion(k)
    ensures GetMessage(Some(EntityTypeFor(k))) == k
  {
  }

  /** Unrecognised and missing entity types are indistinguishable from 'SPRITE'. */
  lemma UnknownEntityTypeIsSprite(entityType: Option<string>)
    requires entityType !in {Some("COSTUME"), Some("SOUND")}
    ensures GetMessage(entityType) == GetMessage(Some("SPRITE"))
    ensures GetMessage(entityType) == GetMessage(None)
  {
  }
}
