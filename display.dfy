/** What the command line shows: the provider panel (`display_provider_info`)
    and the cells of the model table (`display_models`) in main.py. Rendering
    itself is not modelled; a table is the sequence of its rows. */
module Display {
  import opened Wrappers
  import Masking
  import Providers

  /** The normalised model record every provider adapter returns. */
  datatype ModelInfo = ModelInfo(id: string, name: Option<string>, description: Option<string>, created: Option<int>)

  /** One row of the model table: id, name and description columns. */
  datatype Row = Row(id: string, name: string, description: string)

  /** The most characters (code points, as Python's `len` counts them) a
      description cell holds, and how many of a longer description are kept. */
  const MaxDescriptionLength: nat := 50
  const KeptPrefix: nat := 47
  const Ellipsis: string := "..."
  const Placeholder: string := "-"

  /** The provider's display name (the `name` property of each adapter). */
  function DisplayName(kind: Providers.ProviderKind): (r: string)
    ensures r != ""
    ensures kind.OpenAI? ==> r == "OpenAI"
    ensures kind.Anthropic? ==> r == "Anthropic"
    ensures kind.Gemini? ==> r == "Gemini"
  {
    match kind
    case OpenAI => "OpenAI"
    case Anthropic => "Anthropic"
    case Gemini => "Gemini"
  }

  /** The "Base URL" line of the provider panel. */
  function BaseUrlCell(baseUrl: Option<string>): (r: string)
    ensures r != ""
    ensures Truthy(baseUrl) ==> r == baseUrl.value
    ensures !Truthy(baseUrl) ==> r == "(default)"
  {
    Or(baseUrl, Some("(default)")).value
  }

  /** The three label/value lines of the provider panel. */
  function ProviderInfoRows(cfg: Providers.ProviderConfig): (r: seq<(string, string)>)
    ensures |r| == 3
    ensures r[0] == ("Provider", DisplayName(cfg.kind))
    ensures r[1].0 == "API Key" && Masking.IsMaskOf(cfg.apiKey, r[1].1)
    ensures r[2] == ("Base URL", BaseUrlCell(cfg.baseUrl))
  {
    [("Provider", DisplayName(cfg.kind)),
     ("API Key", Masking.MaskApiKey(cfg.apiKey)),
     ("Base URL", BaseUrlCell(cfg.baseUrl))]
  }

  /** The panel shows nothing of the key beyond its length and, for a long key,
      its first and last four characters: keys that agree on those give the
      same panel. */
  lemma PanelHidesKey(c1: Providers.ProviderConfig, c2: Providers.ProviderConfig)
    requires c1.kind == c2.kind && c1.baseUrl == c2.baseUrl
    requires |c1.apiKey| == |c2.apiKey|
    requires |c1.apiKey| > Masking.ShortKeyLength ==>
      && c1.apiKey[..Masking.Shown] == c2.apiKey[..Masking.Shown]
      && c1.apiKey[|c1.apiKey| - Masking.Shown..] == c2.apiKey[|c2.apiKey| - Masking.Shown..]
    ensures ProviderInfoRows(c1) == ProviderInfoRows(c2)
  { }

  /** The name column: the model's name, or a dash when it has none. */
  function NameCell(name: Option<string>): (r: string)
    ensures r != ""
    ensures Truthy(name) ==> r == name.value
    ensures !Truthy(name) ==> r == Placeholder
  {
    Or(name, Some(Placeholder)).value
  }

  /** The description column: a description longer than 50 characters is cut to
      its first 47 characters and an ellipsis; a missing or empty one is a dash. */
  function DescriptionCell(description: Option<string>): (r: string)
    ensures 0 < |r| <= MaxDescriptionLength
    ensures Truthy(description) && |description.value| <= MaxDescriptionLength ==> r == description.value
    ensures Truthy(description) && |description.value| > MaxDescriptionLength ==>
      && |r| == MaxDescriptionLength
      && r[..KeptPrefix] == description.value[..KeptPrefix]
      && r[KeptPrefix..] == Ellipsis
    ensures !Truthy(description) ==> r == Placeholder
  {
    if Truthy(description) && |description.value| > MaxDescriptionLength
    then description.value[..KeptPrefix] + Ellipsis
    else Or(description, Some(Placeholder)).value
  }

  /** A cell has at most 50 characters, so formatting it again leaves it as it is. */
  lemma DescriptionCellIdempotent(description: Option<string>)
    ensures DescriptionCell(Some(DescriptionCell(description))) == DescriptionCell(description)
  { }

  /** Only descriptions longer than 50 characters lose characters. */
  lemma DescriptionKeptIff(d: string)
    ensures DescriptionCell(Some(d)) == d <==> 0 < |d| <= MaxDescriptionLength
  { }

  /** The table row for one model. */
  function RowOf(m: ModelInfo): Row {
    Row(m.id, NameCell(m.name), DescriptionCell(m.description))
  }

  /** The loop that adds one row per model, in the order the provider listed them. */
  method ModelRows(models: seq<ModelInfo>) returns (rows: seq<Row>)
    ensures |rows| == |models|
    ensures forall i :: 0 <= i < |models| ==> rows[i] == RowOf(models[i])
    ensures forall i :: 0 <= i < |rows| ==> rows[i].id == models[i].id && |rows[i].description| <= MaxDescriptionLength
  {
    rows := [];
    for k := 0 to |models|
      invariant |rows| == k
      invariant forall i :: 0 <= i < k ==> rows[i] == RowOf(models[i])
    {
      rows := rows + [RowOf(models[k])];
    }
  }
}
