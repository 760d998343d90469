/** The badge shown for a customer's status: a total map to a style variant and
    a total map to a label. */
module StatusBadge {
  import opened Types

  datatype Variant = Default | Secondary | Destructive | Outline

  function VariantOf(s: Status): Variant {
    match s
    case Active => Default
    case Trialing => Secondary
    case PastDue => Destructive
    case Canceled => Outline
  }

  function LabelOf(s: Status): string {
    match s
    case Active => "Active"
    case Trialing => "Trial"
    case PastDue => "Past Due"
    case Canceled => "Canceled"
  }

  /** No two statuses share a label, and no two share a variant */
  lemma BadgesDistinguishStatuses(s: Status, t: Status)
    ensures LabelOf(s) == LabelOf(t) <==> s == t
    ensures VariantOf(s) == VariantOf(t) <==> s == t
  {
  }
}
