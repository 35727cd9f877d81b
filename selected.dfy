/**
 * The selection store: for each side (isLeft true or false) the selected
 * scheme and the selected concept, independent of the mapping being edited.
 */
module Selected {
  import opened Jskos

  /** The two tables of the state. */
  datatype Kind = SchemeKind | ConceptKind

  /** What `set` writes: both tables of a side at once, or one of them. */
  datatype SetKind = Both | Only(kind: Kind)

  class Selection {
    var scheme: map<bool, Option<Item>>
    var concept: map<bool, Option<Item>>

    ghost predicate Valid()
      reads this
    {
      true in scheme && false in scheme && true in concept && false in concept
    }

    constructor ()
      ensures Valid()
      ensures scheme == map[true := None, false := None] && concept == map[true := None, false := None]
    {
      scheme := map[true := None, false := None];
      concept := map[true := None, false := None];
    }

    /**
     * Clears one table's entry for a side; clearing a scheme clears that
     * side's concept too. The other side is left alone.
     */
    method Clear(kind: Kind, isLeft: bool)
      requires Valid()
      modifies this
      ensures Valid()
      ensures concept[isLeft] == None
      ensures scheme[isLeft] == if kind == SchemeKind then None else old(scheme[isLeft])
      ensures scheme[!isLeft] == old(scheme[!isLeft]) && concept[!isLeft] == old(concept[!isLeft])
    {
      if kind == SchemeKind {
        scheme := scheme[isLeft := None];
      } else {
        concept := concept[isLeft := None];
      }
      if kind == SchemeKind {
        concept := concept[isLeft := None];
      }
    }

    /**
     * With kind Both writes the side's scheme and concept together; otherwise
     * writes `value` into the one table named. The other side is left alone.
     */
    method Set(kind: SetKind, isLeft: bool, value: Option<Item>, newConcept: Option<Item>, newScheme: Option<Item>)
      requires Valid()
      modifies this
      ensures Valid()
      ensures kind == Both ==> scheme[isLeft] == newScheme && concept[isLeft] == newConcept
      ensures kind == Only(SchemeKind) ==> scheme[isLeft] == value && concept[isLeft] == old(concept[isLeft])
      ensures kind == Only(ConceptKind) ==> concept[isLeft] == value && scheme[isLeft] == old(scheme[isLeft])
      ensures scheme[!isLeft] == old(scheme[!isLeft]) && concept[!isLeft] == old(concept[!isLeft])
    {
      if kind == Both {
        scheme := scheme[isLeft := newScheme];
        concept := concept[isLeft := newConcept];
      } else if kind.kind == SchemeKind {
        scheme := scheme[isLeft := value];
      } else {
        concept := concept[isLeft := value];
      }
    }
  }
}
