/** The type badge of a supplement (`frontend/src/components/supplements/SupplementCard.tsx`,
    repeated in `frontend/src/pages/supplements/SupplementDetailPage.tsx`): the Bootstrap
    variant and the label for a type code, and the badges a card shows. */
module SupplementCard {

  /** The back end's supplement types (`Supplement.SupplementType`). */
  datatype SupplementType = Protein | PreWorkout | Bcaa | Creatine | Vitamins | Other

  /** The stored code of a type. */
  function Code(t: SupplementType): string {
    match t
    case Protein => "protein"
    case PreWorkout => "pre_workout"
    case Bcaa => "bcaa"
    case Creatine => "creatine"
    case Vitamins => "vitamins"
    case Other => "other"
  }

  /** The back end's display name of a type. */
  function DisplayName(t: SupplementType): string {
    match t
    case Protein => "Proteína"
    case PreWorkout => "Pré-treino"
    case Bcaa => "BCAA"
    case Creatine => "Creatina"
    case Vitamins => "Vitaminas"
    case Other => "Outro"
  }

  lemma CodesAreDistinct(s: SupplementType, t: SupplementType)
    ensures Code(s) == Code(t) ==> s == t
  {
  }

  const Fallback := "primary"
  const FallbackLabel := "Outro"

  /** The card's `typeLabels` record. */
  const CardLabels: map<string, string> := map[
    "protein" := "Proteína", "pre_workout" := "Pré-treino", "bcaa" := "BCAA",
    "creatine" := "Creatina", "vitamins" := "Vitaminas", "other" := "Outro"]

  /** The card's `switch` on the type code. */
  function CardVariant(code: string): (v: string)
    ensures v == Fallback <==> code !in CardLabels || code == "other"
  {
    if code == "protein" then "danger"
    else if code == "pre_workout" then "success"
    else if code == "bcaa" then "warning"
    else if code == "creatine" then "info"
    else if code == "vitamins" then "secondary"
    else Fallback
  }

  /** `typeLabels[type] || 'Outro'` on the card. */
  function CardLabel(code: string): (l: string)
    ensures code !in CardLabels ==> l == FallbackLabel
  {
    if code in CardLabels && CardLabels[code] != "" then CardLabels[code] else FallbackLabel
  }

  /** The detail page's own `typeLabels` record. */
  const DetailLabels: map<string, string> := map[
    "protein" := "Proteína", "pre_workout" := "Pré-treino", "bcaa" := "BCAA",
    "creatine" := "Creatina", "vitamins" := "Vitaminas", "other" := "Outro"]

  /** The detail page's `switch`. */
  function DetailVariant(code: string): string {
    match code
    case "protein" => "danger"
    case "pre_workout" => "success"
    case "bcaa" => "warning"
    case "creatine" => "info"
    case "vitamins" => "secondary"
    case _ => "primary"
  }

  function DetailLabel(code: string): string {
    if code in DetailLabels && DetailLabels[code] != "" then DetailLabels[code] else "Outro"
  }

  /** The two copies agree on every code, known or not. */
  lemma CardMatchesDetailPage(code: string)
    ensures CardVariant(code) == DetailVariant(code)
    ensures CardLabel(code) == DetailLabel(code)
  {
  }

  /** Over the back end's types the label is the back end's display name, and the five
      types other than 'other' get five different variants. */
  lemma BadgeCoversEveryType(s: SupplementType, t: SupplementType)
    ensures CardLabel(Code(t)) == DisplayName(t)
    ensures CardVariant(Code(t)) == Fallback <==> t == Other
    ensures s != t && s != Other && t != Other ==> CardVariant(Code(s)) != CardVariant(Code(t))
  {
  }

  datatype Badge = TypeBadge(variant: string, text: string) | Unavailable

  /** The badges on a card: the type badge, then 'Indisponível' exactly when the
      supplement is not available. */
  function Badges(code: string, available: bool): (b: seq<Badge>)
    ensures |b| >= 1 && b[0] == TypeBadge(CardVariant(code), CardLabel(code))
    ensures Unavailable in b <==> !available
  {
    [TypeBadge(CardVariant(code), CardLabel(code))] + (if available then [] else [Unavailable])
  }
}
