/** `modelMapper`: the model identifier for a tier and a purpose. */
module ModelMapper {

  datatype Purpose = Think | Dev

  /** The tier is whatever the last user message recorded; only "HIGH" selects the
      high tier, anything else falls through to the mid tier. */
  function ModelFor(mode: string, purpose: Purpose): (m: string)
    ensures mode == "HIGH" && purpose == Think ==> m == "o4-mini"
    ensures mode == "HIGH" && purpose == Dev ==> m == "gpt-5-mini"
    ensures mode != "HIGH" && purpose == Think ==> m == "gpt-5-mini"
    ensures mode != "HIGH" && purpose == Dev ==> m == "gpt-4.1-mini"
  {
    if mode == "HIGH" then
      if purpose == Think then "o4-mini" else "gpt-5-mini"
    else
      if purpose == Think then "gpt-5-mini" else "gpt-4.1-mini"
  }

  /** Any tier other than "HIGH" selects the same models as "MID". */
  lemma OtherTiersAreMid(mode: string, purpose: Purpose)
    requires mode != "HIGH"
    ensures ModelFor(mode, purpose) == ModelFor("MID", purpose)
  {
  }
}
