/** The fixed catalog of agent personas a user picks from. */
module Personas {

  datatype Persona = Persona(name: string, desc: string, image: string, inputImage: string, voice: string)

  const Catalog: seq<Persona> := [
    Persona("Alice", "Interview Assistant", "alice.png", "static/avatar.png", "af_heart"),
    Persona("Elenora", "Customer Service", "elenora.png", "static/idle.mp4", "af_sky"),
    Persona("James", "Coding Assistant", "james.png", "static/james.mp4", "am_adam")
  ]

  /** The persona selected when the component mounts. */
  const DefaultPersona: Persona := Catalog[0]

  /** The picker marks entry `i` as selected when its name matches the selected persona's. */
  predicate Highlighted(selected: Persona, i: nat)
    requires i < |Catalog|
  {
    Catalog[i].name == selected.name
  }

  lemma CatalogNamesDistinct()
    ensures forall i, j :: 0 <= i < j < |Catalog| ==> Catalog[i].name != Catalog[j].name
  {
  }

  /** Picking entry `k` highlights exactly that entry. */
  lemma SelectionHighlightsOne(k: nat)
    requires k < |Catalog|
    ensures forall i :: 0 <= i < |Catalog| ==> (Highlighted(Catalog[k], i) <==> i == k)
  {
  }
}
