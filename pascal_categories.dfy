/**
 * The PASCAL VOC category table of python/main.py: the twenty category names, the
 * name-to-position dictionary built from them, and `transform_pascal`, which turns an
 * annotation into the class index of its first object.
 */
module PascalCategories {
  import opened Wrappers

  /** `object_categories`, in order. */
  const OBJECT_CATEGORIES: seq<string> := [
    "aeroplane", "bicycle", "bird", "boat", "bottle", "bus", "car", "cat", "chair", "cow",
    "diningtable", "dog", "horse", "motorbike", "person", "pottedplant", "sheep", "sofa",
    "train", "tvmonitor"
  ]

  /**
   * `dict(zip(names, range(len(names))))`: every name maps to a position, a later
   * occurrence of a name overwriting an earlier one, as a dictionary built from pairs does.
   */
  function ZipIndex(names: seq<string>): (idx: map<string, nat>)
    ensures idx.Keys == set i | 0 <= i < |names| :: names[i]
    ensures forall name :: name in idx ==> idx[name] < |names| && names[idx[name]] == name
    ensures forall i :: 0 <= i < |names| ==> i <= idx[names[i]]
  {
    if names == [] then map[]
    else
      var n := |names| - 1;
      var earlier := ZipIndex(names[..n]);
      assert forall i :: 0 <= i < n ==> names[..n][i] == names[i];
      earlier[names[n] := n]
  }

  /** No name occurs twice. */
  predicate Distinct(names: seq<string>)
  {
    forall i, j :: 0 <= i < j < |names| ==> names[i] != names[j]
  }

  /** For distinct names the dictionary is the exact inverse of the list. */
  lemma ZipIndexInverts(names: seq<string>)
    requires Distinct(names)
    ensures forall i :: 0 <= i < |names| ==> ZipIndex(names)[names[i]] == i
  {
    var idx := ZipIndex(names);
    forall i | 0 <= i < |names|
      ensures idx[names[i]] == i
    {
      var k := idx[names[i]];
      assert i <= k && names[k] == names[i];
    }
  }

  /** The first three letters of a name as one number, ordered as the names are. */
  function Rank(name: string): int
    requires |name| >= 3
  {
    (name[0] as int) * 0x1_0000 + (name[1] as int) * 0x100 + name[2] as int
  }

  /** Every name has three letters, and each name ranks strictly below the next one. */
  predicate Rising(names: seq<string>)
  {
    (forall i :: 0 <= i < |names| ==> |names[i]| >= 3)
    && forall i :: 0 <= i < |names| - 1 ==> Rank(names[i]) < Rank(names[i + 1])
  }

  /** In a rising list an earlier name ranks below every later one. */
  lemma {:induction false} RisingBelow(names: seq<string>, i: nat, j: nat)
    requires Rising(names) && i < j < |names|
    ensures Rank(names[i]) < Rank(names[j])
    decreases j - i
  {
    if i + 1 < j {
      RisingBelow(names, i + 1, j);
    }
  }

  /** A rising list of names has no name twice. */
  lemma RisingDistinct(names: seq<string>)
    requires Rising(names)
    ensures Distinct(names)
  {
    forall i, j | 0 <= i < j < |names|
      ensures names[i] != names[j]
    {
      RisingBelow(names, i, j);
    }
  }

  /** The twenty category names are pairwise different: they are listed in alphabetical order. */
  lemma CategoriesDistinct()
    ensures Distinct(OBJECT_CATEGORIES)
  {
    CategoriesRising(OBJECT_CATEGORIES);
    RisingDistinct(OBJECT_CATEGORIES);
  }

  /** Helper: consecutive category names differ within their first three letters. */
  lemma CategoriesRising(names: seq<string>)
    requires names == OBJECT_CATEGORIES
    ensures Rising(names)
  {
    forall i {:trigger names[i]} | 0 <= i < |names| - 1
      ensures |names[i]| >= 3 && |names[i + 1]| >= 3 && Rank(names[i]) < Rank(names[i + 1])
    {
    }
  }

  /** `object_categories_idx` */
  function CategoryIndex(): map<string, nat>
  {
    ZipIndex(OBJECT_CATEGORIES)
  }

  /**
   * `object_categories_idx` is a bijection between the twenty names and 0 .. 19:
   * each name maps back to its own position, and each key is one of the names.
   */
  lemma CategoryIndexBijection()
    ensures |OBJECT_CATEGORIES| == 20
    ensures forall i :: 0 <= i < 20 ==> OBJECT_CATEGORIES[i] in CategoryIndex() && CategoryIndex()[OBJECT_CATEGORIES[i]] == i
    ensures forall name :: name in CategoryIndex() ==> CategoryIndex()[name] < 20 && OBJECT_CATEGORIES[CategoryIndex()[name]] == name
  {
    CategoriesDistinct();
    ZipIndexInverts(OBJECT_CATEGORIES);
  }

  /** One `<object>` entry of a VOC annotation; only its name is looked at. */
  datatype AnnotatedObject = AnnotatedObject(name: string)

  /** `x["annotation"]` of a parsed VOC annotation, reduced to its list of objects. */
  datatype Annotation = Annotation(objects: seq<AnnotatedObject>)

  /** Why `transform_pascal` raises: no object (IndexError) or an unknown name (KeyError). */
  datatype TransformError = NoObject | UnknownCategory(name: string)

  /**
   * `transform_pascal`: the category index of the first object's name. It succeeds exactly
   * when there is an object and the first object's name is one of the twenty (a category
   * of a later object is not looked at); the index returned is the position of that name
   * in `object_categories`.
   */
  function TransformPascal(x: Annotation): (r: Result<nat, TransformError>)
    ensures r.Success? <==> |x.objects| > 0 && x.objects[0].name in OBJECT_CATEGORIES
    ensures r.Success? ==> r.value < |OBJECT_CATEGORIES| && OBJECT_CATEGORIES[r.value] == x.objects[0].name
    ensures |x.objects| == 0 ==> r == Failure(NoObject)
    ensures |x.objects| > 0 && x.objects[0].name !in OBJECT_CATEGORIES ==> r == Failure(UnknownCategory(x.objects[0].name))
  {
    if |x.objects| == 0 then Failure(NoObject)
    else
      var name := x.objects[0].name;
      if name !in CategoryIndex() then Failure(UnknownCategory(name))
      else Success(CategoryIndex()[name])
  }

  /** Labelling an annotation whose first object is category `i` gives back `i`. */
  lemma TransformPascalRoundTrip(i: nat, rest: seq<AnnotatedObject>)
    requires i < |OBJECT_CATEGORIES|
    ensures TransformPascal(Annotation([AnnotatedObject(OBJECT_CATEGORIES[i])] + rest)) == Success(i)
  {
    CategoryIndexBijection();
  }
}
