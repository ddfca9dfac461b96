/**
 * The model picker: the catalogue of models offered to the student, the lookup of the
 * selected id with the first entry as default, the pricing badge, and the dropdown's
 * open/close state.
 */
module ModelSelector {
  import opened Wrappers

  datatype AIModel = AIModel(
    id: string, name: string, provider: string, description: string,
    pricing: string, speed: string, quality: string, supportsVision: bool)

  const AvailableModels: seq<AIModel> := [
    AIModel("google/gemini-2.0-flash-exp:free", "Gemini Flash (Free)", "Google",
            "Fast, free responses. Great for quick questions.", "free", "fast", "great", true),
    AIModel("meta-llama/llama-3.2-3b-instruct:free", "Llama 3.2 (Free)", "Meta",
            "Open-source model, good for general learning.", "free", "fast", "good", false),
    AIModel("openai/gpt-3.5-turbo", "GPT-3.5 Turbo", "OpenAI",
            "Balanced quality and speed. Good all-rounder.", "low", "fast", "great", false),
    AIModel("openai/gpt-4-turbo", "GPT-4 Turbo", "OpenAI",
            "Advanced reasoning, best for complex topics.", "medium", "medium", "excellent", true),
    AIModel("anthropic/claude-3.5-sonnet", "Claude 3.5 Sonnet", "Anthropic",
            "Excellent for detailed explanations and writing.", "medium", "medium", "excellent", true),
    AIModel("google/gemini-pro-1.5", "Gemini Pro", "Google",
            "Premium Gemini with advanced capabilities.", "low", "fast", "excellent", true)
  ]

  /** No two catalogue entries share an id, so the id works as the list key. */
  predicate IdsDistinct(models: seq<AIModel>) {
    forall i, j :: 0 <= i < j < |models| ==> models[i].id != models[j].id
  }

  lemma CatalogueIdsDistinct()
    ensures IdsDistinct(AvailableModels) && |AvailableModels| == 6
  {
  }

  /** `models.find(m => m.id === id)`: the first entry with that id. */
  function Find(models: seq<AIModel>, id: string): (r: Option<nat>)
    ensures r.Some? ==> r.value < |models| && models[r.value].id == id
                        && forall j :: 0 <= j < r.value ==> models[j].id != id
    ensures r.None? ==> forall j :: 0 <= j < |models| ==> models[j].id != id
  {
    if models == [] then None
    else if models[0].id == id then Some(0)
    else
      match Find(models[1..], id)
      case None => None
      case Some(k) => Some(k + 1)
  }

  /** `AVAILABLE_MODELS.find(m => m.id === selectedModel) || AVAILABLE_MODELS[0]`. */
  function CurrentModel(selected: string): (m: AIModel)
    ensures m in AvailableModels
    ensures (exists j :: 0 <= j < |AvailableModels| && AvailableModels[j].id == selected) ==> m.id == selected
    ensures (forall j :: 0 <= j < |AvailableModels| ==> AvailableModels[j].id != selected) ==> m == AvailableModels[0]
  {
    match Find(AvailableModels, selected)
    case Some(k) => AvailableModels[k]
    case None => AvailableModels[0]
  }

  /** Choosing any catalogue entry makes it the current model: the id leads back to that entry. */
  lemma CurrentModelOfEntry(i: nat)
    requires i < |AvailableModels|
    ensures CurrentModel(AvailableModels[i].id) == AvailableModels[i]
  {
    CatalogueIdsDistinct();
    var k := Find(AvailableModels, AvailableModels[i].id);
    assert k.Some?;
    assert k.value == i;
  }

  /** An id outside the catalogue shows the first entry. */
  lemma UnknownIdShowsDefault(selected: string)
    requires forall j :: 0 <= j < |AvailableModels| ==> AvailableModels[j].id != selected
    ensures CurrentModel(selected).id == "google/gemini-2.0-flash-exp:free"
  {
  }

  /** `getPricingLabel`. */
  function PricingLabel(pricing: string): (badge: string)
    ensures pricing == "free" <==> badge == "Free"
    ensures pricing == "low" <==> badge == "$"
    ensures pricing == "medium" <==> badge == "$$"
    ensures pricing == "high" <==> badge == "$$$"
    ensures badge == [] <==> pricing !in {"free", "low", "medium", "high"}
  {
    match pricing
    case "free" => "Free"
    case "low" => "$"
    case "medium" => "$$"
    case "high" => "$$$"
    case _ => ""
  }

  /** `getPricingColor`. */
  function PricingColor(pricing: string): (color: string)
    ensures pricing == "free" <==> color == "text-green-500"
    ensures pricing == "low" <==> color == "text-blue-500"
    ensures pricing == "medium" <==> color == "text-yellow-500"
    ensures pricing == "high" <==> color == "text-red-500"
    ensures color == "text-text-muted" <==> pricing !in {"free", "low", "medium", "high"}
  {
    match pricing
    case "free" => "text-green-500"
    case "low" => "text-blue-500"
    case "medium" => "text-yellow-500"
    case "high" => "text-red-500"
    case _ => "text-text-muted"
  }

  /** The catalogue only uses the four tiers, so every entry gets a non-empty label. */
  lemma CatalogueHasLabels(i: nat)
    requires i < |AvailableModels|
    ensures PricingLabel(AvailableModels[i].pricing) != []
  {
  }

  /** The dropdown; the selected id is the parent's and comes in as a property. */
  class Dropdown {
    var isOpen: bool

    constructor()
      ensures !isOpen
    {
      isOpen := false;
    }

    /** The button toggles the list. */
    method Toggle()
      modifies this
      ensures isOpen == !old(isOpen)
    {
      isOpen := !isOpen;
    }

    /** A click on the backdrop closes the list. */
    method CloseFromBackdrop()
      modifies this
      ensures !isOpen
    {
      isOpen := false;
    }

    /** Choosing an entry reports exactly its id to the parent and closes the list. */
    method Choose(model: AIModel) returns (reported: string)
      modifies this
      ensures reported == model.id && !isOpen
    {
      reported := model.id;
      isOpen := false;
    }
  }
}
