/**
 * The region record the cultural-exploration pages receive from their data
 * source, reduced to the fields the page logic reads. An absent optional array
 * (`major_festivals?.length`, `languages?.length`) behaves exactly like an empty
 * one in every test the pages make, so each is an ordinary sequence here.
 */
module RegionEntity {
  import opened Wrappers

  datatype Festival = Festival(name: string, description: string)

  datatype Cuisine = Cuisine(signature_dishes: seq<string>, cooking_style: string)

  /** `kind` is the record's `type` field (`type` is a Dafny keyword). */
  datatype ArtForm = ArtForm(name: string, kind: string, description: string)

  datatype Region = Region(
    id: string,
    name: string,
    state_code: string,
    description: string,
    primary_language: string,
    languages: seq<string>,
    major_festivals: seq<Festival>,
    cuisine: Option<Cuisine>,
    art_forms: seq<ArtForm>)
}
