/**
 * Product forms: the inline formsets that demand at least one filled form,
 * the choice of form class for a product, the variant choices of the
 * generic product form and its variant lookup.
 */
module ProductForms {
  import opened Common

  /** The two inline formsets: variants and images share the rule, not the message. */
  datatype InlineKind = ProductVariantInline | ImageInline

  const NoVariantsMessage: string := "You have to create at least one variant"
  const NoImagesMessage: string := "You have to add at least one image"

  /** `error_no_items` of each formset. */
  function ErrorNoItems(kind: InlineKind): (message: string)
    ensures kind == ProductVariantInline ==> message == NoVariantsMessage
    ensures kind == ImageInline ==> message == NoImagesMessage
  {
    match kind
    case ProductVariantInline => NoVariantsMessage
    case ImageInline => NoImagesMessage
  }

  /** A form of the formset, by its cleaned data (empty when the form was left blank). */
  type CleanedData = map<string, string>

  /** The number of forms whose cleaned data is non-empty. */
  function CountFilled(forms: seq<CleanedData>): (n: nat)
    ensures n <= |forms|
    decreases |forms|
  {
    if forms == [] then 0
    else CountFilled(forms[..|forms| - 1]) + (if forms[|forms| - 1] != map[] then 1 else 0)
  }

  /** No form is counted exactly when every form is blank. */
  lemma {:induction false} CountFilledZero(forms: seq<CleanedData>)
    ensures CountFilled(forms) == 0 <==> forall i :: 0 <= i < |forms| ==> forms[i] == map[]
    decreases |forms|
  {
    if forms != [] {
      var front := forms[..|forms| - 1];
      CountFilledZero(front);
      if forall i :: 0 <= i < |front| ==> front[i] == map[] {
        forall i | 0 <= i < |front|
          ensures forms[i] == map[]
        {
          assert forms[i] == front[i];
        }
      }
    }
  }

  /** `clean`: counts the filled forms and raises `error_no_items` when there is none. */
  method Clean(forms: seq<CleanedData>, kind: InlineKind) returns (error: Option<string>)
    ensures error.Some? <==> CountFilled(forms) < 1
    ensures error.Some? <==> forall i :: 0 <= i < |forms| ==> forms[i] == map[]
    ensures error.Some? ==> error.value == ErrorNoItems(kind)
  {
    var count := 0;
    var i := 0;
    while i < |forms|
      invariant 0 <= i <= |forms|
      invariant count == CountFilled(forms[..i])
    {
      assert forms[..i + 1][..i] == forms[..i];
      if forms[i] != map[] {
        count := count + 1;
      }
      i := i + 1;
    }
    assert forms[..i] == forms;
    CountFilledZero(forms);
    if count < 1 {
      error := Some(ErrorNoItems(kind));
    } else {
      error := None;
    }
  }

  /**
   * The product classes a form can be asked for: `GenericProduct`, a
   * subclass of it, or a class outside that hierarchy.
   */
  datatype ProductClass = GenericProduct | GenericProductSubclass(className: string) | OtherProduct(className: string)

  /** `isinstance(product, GenericProduct)`: the class itself or any subclass. */
  predicate IsGenericProduct(product: ProductClass)
  {
    product.GenericProduct? || product.GenericProductSubclass?
  }

  /** The form classes. */
  datatype FormClass = GenericProductForm

  /** `get_form_class_for_product`: the generic form for a generic product, `NotImplementedError` otherwise. */
  function GetFormClassForProduct(product: ProductClass): (r: Result<FormClass, string>)
    ensures r.Ok? <==> !product.OtherProduct?
    ensures r.Ok? ==> r.value == GenericProductForm
    ensures r.Err? ==> r.error == "NotImplementedError"
  {
    if IsGenericProduct(product) then Ok(GenericProductForm) else Err("NotImplementedError")
  }

  /** A product variant: its SKU and name. */
  datatype Variant = Variant(sku: string, name: string)

  /** The `name` field's choices: one (sku, name) pair per variant, in variant order. */
  function NameChoices(variants: seq<Variant>): (choices: seq<(string, string)>)
    ensures |choices| == |variants|
    ensures forall i :: 0 <= i < |variants| ==> choices[i] == (variants[i].sku, variants[i].name)
  {
    seq(|variants|, i requires 0 <= i < |variants| => (variants[i].sku, variants[i].name))
  }

  /** Every variant appears among the choices, and every choice comes from a variant. */
  lemma NameChoicesCoverVariants(variants: seq<Variant>)
    ensures forall v :: v in variants ==> (v.sku, v.name) in NameChoices(variants)
    ensures forall c :: c in NameChoices(variants) ==> Variant(c.0, c.1) in variants
  {
    var choices := NameChoices(variants);
    forall v | v in variants
      ensures (v.sku, v.name) in choices
    {
      var i :| 0 <= i < |variants| && variants[i] == v;
      assert choices[i] == (v.sku, v.name);
    }
    forall c | c in choices
      ensures Variant(c.0, c.1) in variants
    {
      var i :| 0 <= i < |choices| && choices[i] == c;
      assert variants[i] == Variant(c.0, c.1);
    }
  }

  /** The variants with the given name, in order. */
  function NamedVariants(variants: seq<Variant>, name: string): (r: seq<Variant>)
    ensures forall v :: v in r <==> v in variants && v.name == name
    decreases |variants|
  {
    if variants == [] then []
    else
      var last := variants[|variants| - 1];
      NamedVariants(variants[..|variants| - 1], name) + (if last.name == name then [last] else [])
  }

  /** What the lookup `variants.get(name=name)` ends in. */
  datatype Lookup = Found(variant: Variant) | DoesNotExist | MultipleObjectsReturned

  /** `variants.get(name=name)`: exactly one match, or the exception for none or several. */
  function GetByName(variants: seq<Variant>, name: string): (r: Lookup)
    ensures r.Found? <==> |NamedVariants(variants, name)| == 1
    ensures r.Found? ==> r.variant in variants && r.variant.name == name
    ensures r == DoesNotExist <==> forall v :: v in variants ==> v.name != name
  {
    var matches := NamedVariants(variants, name);
    if |matches| == 0 then DoesNotExist
    else if |matches| == 1 then
      assert matches[0] in matches;
      Found(matches[0])
    else
      assert matches[0] in matches;
      MultipleObjectsReturned
  }

  /**
   * `get_variant` as written: a missing "name" key raises `KeyError`, a
   * failed lookup raises its exception, and a successful lookup is
   * discarded, so the result is always `None`.
   */
  function GetVariantAsWritten(variants: seq<Variant>, cleanedData: CleanedData): (r: Result<Option<Variant>, string>)
    ensures r.Ok? ==> r.value.None?
    ensures r.Ok? <==> "name" in cleanedData && GetByName(variants, cleanedData["name"]).Found?
  {
    if "name" !in cleanedData then Err("KeyError")
    else match GetByName(variants, cleanedData["name"])
      case Found(_) => Ok(None)
      case DoesNotExist => Err("DoesNotExist")
      case MultipleObjectsReturned => Err("MultipleObjectsReturned")
  }

  /**
   * A single variant whose SKU and name are both "red", so the form's choice
   * field accepts "red": the lookup finds it, yet `get_variant` as written
   * returns `None`.
   */
  lemma GetVariantAsWrittenLosesVariant()
    ensures ("red", "red") in NameChoices([Variant("red", "red")])
    ensures GetByName([Variant("red", "red")], "red") == Found(Variant("red", "red"))
    ensures GetVariantAsWritten([Variant("red", "red")], map["name" := "red"]) == Ok(None)
  {
    var vs := [Variant("red", "red")];
    assert NameChoices(vs)[0] == ("red", "red");
    assert vs[..0] == [];
    assert NamedVariants(vs, "red") == [Variant("red", "red")];
  }

  /** `get_variant` returning the variant it looked up. */
  function GetVariant(variants: seq<Variant>, cleanedData: CleanedData): (r: Result<Option<Variant>, string>)
    ensures r.Ok? <==> "name" in cleanedData && GetByName(variants, cleanedData["name"]).Found?
    ensures r.Ok? ==> r.value.Some? && r.value.value in variants && r.value.value.name == cleanedData["name"]
    ensures r.Ok? ==> r.value == Some(GetByName(variants, cleanedData["name"]).variant)
  {
    if "name" !in cleanedData then Err("KeyError")
    else match GetByName(variants, cleanedData["name"])
      case Found(v) => Ok(Some(v))
      case DoesNotExist => Err("DoesNotExist")
      case MultipleObjectsReturned => Err("MultipleObjectsReturned")
  }

  /**
   * The `name` field posts a choice's value, which is the SKU, while the
   * lookup matches names: a variant with SKU "r1" named "red" is offered as
   * the choice ("r1", "red"), yet the posted "r1" names no variant, so
   * `get_variant` raises `DoesNotExist`, as written and when corrected.
   */
  lemma ChoiceValueIsSkuNotName()
    ensures ("r1", "red") in NameChoices([Variant("r1", "red")])
    ensures GetVariantAsWritten([Variant("r1", "red")], map["name" := "r1"]) == Err("DoesNotExist")
    ensures GetVariant([Variant("r1", "red")], map["name" := "r1"]) == Err("DoesNotExist")
  {
    var vs := [Variant("r1", "red")];
    assert NameChoices(vs)[0] == ("r1", "red");
    assert vs[0].name != "r1";
  }
}
