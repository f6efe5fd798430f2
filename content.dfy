/** The page's block templates and the simulated generator that fills them
    in from the user's prompt. */
module Content {

  /** A block template: its stable identifier and its title. The image URL
      and the rendering component are presentation and are not modelled. */
  datatype Template = Template(id: string, title: string)

  /** A generated block: the template's identity plus the text to reveal. */
  datatype Block = Block(id: string, title: string, content: string)

  /** The six templates, in page order. */
  const Templates: seq<Template> := [
    Template("hero", "Hero"),
    Template("benefits", "Преимущества"),
    Template("cases", "Кейсы"),
    Template("cta", "CTA"),
    Template("text", "Текстовый блок"),
    Template("articles", "Статьи")
  ]

  /** The fixed text that precedes the prompt in a block titled `title`. */
  function Lead(title: string): string {
    "Сгенерированный контент для блока «" + title + "» по запросу: "
  }

  /** `templates.map(b => ({...b, content: ...}))`: one block per template,
      in template order, keeping the identity and the title. */
  function Fill(templates: seq<Template>, prompt: string): (r: seq<Block>)
    ensures |r| == |templates|
    ensures forall i :: 0 <= i < |r| ==>
              r[i].id == templates[i].id && r[i].title == templates[i].title
              && r[i].content == Lead(templates[i].title) + prompt
  {
    if templates == [] then []
    else [Block(templates[0].id, templates[0].title, Lead(templates[0].title) + prompt)]
         + Fill(templates[1..], prompt)
  }

  /** The simulated generator: every template filled in from `prompt`. */
  function FakeGenerate(prompt: string): (r: seq<Block>)
    ensures |r| == |Templates|
    ensures forall i :: 0 <= i < |r| ==>
              r[i].id == Templates[i].id && r[i].title == Templates[i].title
              && r[i].content == Lead(Templates[i].title) + prompt
  {
    Fill(Templates, prompt)
  }

  /** Reads the prompt back out of a generated block, if the block's content
      has the generator's shape. */
  function PromptOf(b: Block): (p: Option<string>)
    ensures p.Some? ==> b.content == Lead(b.title) + p.value
  {
    var lead := Lead(b.title);
    if |lead| <= |b.content| && b.content[..|lead|] == lead
    then Some(b.content[|lead|..])
    else None
  }

  datatype Option<T> = None | Some(value: T)

  /** Every generated block carries the prompt it was generated from. */
  lemma PromptRoundTrip(prompt: string, i: nat)
    requires i < |Templates|
    ensures |FakeGenerate(prompt)| == |Templates|
    ensures PromptOf(FakeGenerate(prompt)[i]) == Some(prompt)
  {
    var b := FakeGenerate(prompt)[i];
    assert b.content[..|Lead(b.title)|] == Lead(b.title);
    assert b.content[|Lead(b.title)|..] == prompt;
  }

  /** The generator always yields six blocks with distinct identifiers and
      non-empty contents, so every block of a generated page gets typed. */
  lemma GeneratedPageShape(prompt: string)
    ensures |FakeGenerate(prompt)| == 6
    ensures forall i, j :: 0 <= i < j < 6 ==> FakeGenerate(prompt)[i].id != FakeGenerate(prompt)[j].id
    ensures forall i :: 0 <= i < 6 ==> |FakeGenerate(prompt)[i].content| > |prompt|
  {
    var r := FakeGenerate(prompt);
    assert r[0].id == "hero" && r[1].id == "benefits" && r[2].id == "cases";
    assert r[3].id == "cta" && r[4].id == "text" && r[5].id == "articles";
  }
}
