/** The brand -> model -> case-type picker of
    components/phone-model-selector.tsx. Its three pieces of state are the
    fields of `Selector`; the `onSelect` and `onClose` callbacks and the error
    toast each handler fires are returned, in order, as `Callback` values. */
module PhoneModelSelector {
  import opened Common

  datatype CaseOption = CaseOption(id: string, name: string, price: int, image: string)

  /** The `PhoneModel` record the picker hands to its caller. */
  datatype PhoneModel = PhoneModel(
    id: string,
    name: string,
    image: string,
    cases: seq<CaseOption>,
    brand: Option<string>,
    model: Option<string>,
    modelName: Option<string>,
    caseType: Option<string>)

  /** An entry of the model catalog: `{ id, name }`. */
  datatype ModelOption = ModelOption(id: string, name: string)

  datatype Callback = OnSelect(model: PhoneModel) | OnClose | ErrorToast(message: string)

  const PhoneBrands: seq<string> := ["apple", "samsung", "oneplus", "xiaomi", "google", "other"]

  const CaseTypes: seq<string> := ["slim", "tough", "wallet", "battery", "clear"]

  /** `PHONE_MODELS[brand]`, absent for a brand the catalog does not list. */
  function ModelsFor(brand: string): Option<seq<ModelOption>> {
    match brand
    case "apple" => Some([
      ModelOption("iphone-15-pro", "iPhone 15 Pro"), ModelOption("iphone-15", "iPhone 15"),
      ModelOption("iphone-14-pro", "iPhone 14 Pro"), ModelOption("iphone-14", "iPhone 14"),
      ModelOption("iphone-se", "iPhone SE")])
    case "samsung" => Some([
      ModelOption("galaxy-s23", "Galaxy S23"), ModelOption("galaxy-s23-ultra", "Galaxy S23 Ultra"),
      ModelOption("galaxy-z-fold5", "Galaxy Z Fold 5"), ModelOption("galaxy-z-flip5", "Galaxy Z Flip 5"),
      ModelOption("galaxy-a54", "Galaxy A54")])
    case "oneplus" => Some([
      ModelOption("oneplus-11", "OnePlus 11"), ModelOption("oneplus-nord-3", "OnePlus Nord 3"),
      ModelOption("oneplus-10t", "OnePlus 10T")])
    case "xiaomi" => Some([
      ModelOption("xiaomi-13-pro", "Xiaomi 13 Pro"), ModelOption("redmi-note-12", "Redmi Note 12"),
      ModelOption("poco-f5", "POCO F5")])
    case "google" => Some([
      ModelOption("pixel-7-pro", "Pixel 7 Pro"), ModelOption("pixel-7a", "Pixel 7a"),
      ModelOption("pixel-6a", "Pixel 6a")])
    case "other" => Some([ModelOption("other", "Other Model")])
    case _ => None
  }

  /** Every brand button leads to a non-empty list of models. */
  lemma EveryBrandHasModels(brand: string)
    requires brand in PhoneBrands
    ensures ModelsFor(brand).Some? && |ModelsFor(brand).value| > 0
  {
  }

  /** `caseType || 'standard'`. */
  function CaseTypeOrStandard(caseType: string): (r: string)
    ensures r != ""
    ensures caseType != "" ==> r == caseType
  {
    if caseType == "" then "standard" else caseType
  }

  /** `x || ''` for an optional string. */
  function OrEmpty(s: Option<string>): string {
    s.GetOr("")
  }

  /** The model record `handleModelSelect` builds for a catalog entry. */
  function ModelFor(option: ModelOption, brand: string, caseType: string): (m: PhoneModel)
    ensures m.id == option.id && m.model == Some(option.id)
    ensures m.name == option.name && m.modelName == Some(option.name)
    ensures m.brand == Some(brand) && m.cases == []
    ensures m.image == "/phones/" + option.id + ".png"
    ensures m.caseType == Some(CaseTypeOrStandard(caseType))
  {
    PhoneModel(option.id, option.name, "/phones/" + option.id + ".png", [],
               Some(brand), Some(option.id), Some(option.name), Some(CaseTypeOrStandard(caseType)))
  }

  class Selector {
    var selectedBrand: string
    var selectedModel: Option<PhoneModel>
    var selectedCaseType: string

    /** Initial state copied from `currentSelection`, defaulting to empty. */
    constructor (currentSelection: Option<PhoneModel>)
      ensures currentSelection.None? ==>
        selectedBrand == "" && selectedModel == None && selectedCaseType == ""
      ensures currentSelection.Some? ==>
        selectedBrand == OrEmpty(currentSelection.value.brand) &&
        selectedModel == currentSelection &&
        selectedCaseType == OrEmpty(currentSelection.value.caseType)
    {
      if currentSelection.Some? {
        selectedBrand := OrEmpty(currentSelection.value.brand);
        selectedCaseType := OrEmpty(currentSelection.value.caseType);
      } else {
        selectedBrand := "";
        selectedCaseType := "";
      }
      selectedModel := currentSelection;
    }

    /** The effect that re-copies a new `currentSelection`; without one, nothing changes. */
    method SyncSelection(currentSelection: Option<PhoneModel>)
      modifies this
      ensures currentSelection.None? ==> unchanged(this)
      ensures currentSelection.Some? ==>
        selectedBrand == OrEmpty(currentSelection.value.brand) &&
        selectedModel == currentSelection &&
        selectedCaseType == OrEmpty(currentSelection.value.caseType)
    {
      if currentSelection.Some? {
        selectedBrand := OrEmpty(currentSelection.value.brand);
        selectedModel := currentSelection;
        selectedCaseType := OrEmpty(currentSelection.value.caseType);
      }
    }

    /** Choosing a brand forgets the model and resets the case type to 'standard'. */
    method HandleBrandSelect(brandId: string)
      modifies this
      ensures selectedBrand == brandId && selectedModel == None && selectedCaseType == "standard"
    {
      selectedBrand := brandId;
      selectedModel := None;
      selectedCaseType := "standard";
    }

    /** The case type is always stored; a selected model is updated and reported. */
    method HandleCaseTypeSelect(caseType: string) returns (calls: seq<Callback>)
      modifies this
      ensures selectedCaseType == caseType && selectedBrand == old(selectedBrand)
      ensures old(selectedModel).None? ==> selectedModel == None && calls == []
      ensures old(selectedModel).Some? ==>
        selectedModel == Some(old(selectedModel).value.(caseType := Some(caseType))) &&
        calls == [OnSelect(selectedModel.value)]
    {
      selectedCaseType := caseType;
      calls := [];
      if selectedModel.Some? {
        var updated := selectedModel.value.(caseType := Some(caseType));
        selectedModel := Some(updated);
        calls := [OnSelect(updated)];
      }
    }

    /** Without a brand nothing happens; otherwise the built model is stored and reported. */
    method HandleModelSelect(option: ModelOption) returns (calls: seq<Callback>)
      modifies this
      ensures old(selectedBrand) == "" ==> unchanged(this) && calls == []
      ensures old(selectedBrand) != "" ==>
        selectedModel == Some(ModelFor(option, selectedBrand, selectedCaseType)) &&
        calls == [OnSelect(selectedModel.value)]
      ensures selectedBrand == old(selectedBrand) && selectedCaseType == old(selectedCaseType)
    {
      if selectedBrand == "" {
        return [];
      }
      var newModel := ModelFor(option, selectedBrand, selectedCaseType);
      selectedModel := Some(newModel);
      calls := [OnSelect(newModel)];
    }

    /** The Select button is enabled only when all three choices are made. */
    predicate CanSubmit()
      reads this
    {
      selectedBrand != "" && selectedModel.Some? && selectedCaseType != ""
    }

    /** With a brand and a model: report the model (case type defaulted) and
        close; otherwise only the error toast. The state is not changed. */
    method HandleSubmit() returns (calls: seq<Callback>)
      ensures selectedBrand != "" && selectedModel.Some? ==>
        calls == [OnSelect(selectedModel.value.(caseType := Some(CaseTypeOrStandard(selectedCaseType)))), OnClose]
      ensures !(selectedBrand != "" && selectedModel.Some?) ==>
        calls == [ErrorToast("Please select a phone model")]
      ensures CanSubmit() ==>
        |calls| == 2 && calls[0].OnSelect? && calls[0].model.caseType == Some(selectedCaseType) &&
        calls[1] == OnClose
    {
      if selectedBrand != "" && selectedModel.Some? {
        var toSubmit := selectedModel.value.(caseType := Some(CaseTypeOrStandard(selectedCaseType)));
        calls := [OnSelect(toSubmit), OnClose];
      } else {
        calls := [ErrorToast("Please select a phone model")];
      }
    }
  }
}
