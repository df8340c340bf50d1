/**
 * CatalogSkeleton: classification of a LoRA file by the folders it sits
 * in under the LoRA root, `<BASE_MODEL>/<NN - Category>/<file>`, and the
 * catalogue record built from it. The relative path is given (`relpath`
 * and path normalisation are not modelled): `None` stands for the
 * `ValueError` that `relpath` raises for a file on another drive.
 */
module CatalogSkeleton {
  import opened Text

  /** A table entry: short code and human-readable name. */
  datatype Mapped = Mapped(code: string, name: string)

  /** `BASE_MODEL_MAP`: base-model folder name to (code, name). */
  const BaseModelMap: map<string, Mapped> := map[
    "FLUX" := Mapped("FLX", "Flux"),
    "Flux Krea" := Mapped("FLK", "Flux Krea"),
    "Illustrious" := Mapped("ILL", "Illustrious"),
    "PONY" := Mapped("PNY", "Pony"),
    "SD" := Mapped("SD1", "SD"),
    "SDXL" := Mapped("SDX", "SDXL"),
    "WAN2.1" := Mapped("W21", "WAN2.1"),
    "WAN2.2" := Mapped("W22", "WAN2.2")
  ]

  /** `CATEGORY_INDEX_MAP`: two-digit category index to (code, name). */
  const CategoryIndexMap: map<string, Mapped> := map[
    "01" := Mapped("PPL", "People"),
    "02" := Mapped("STL", "Styles"),
    "03" := Mapped("UTL", "Utils"),
    "04" := Mapped("ACT", "Action"),
    "05" := Mapped("BDY", "Body"),
    "06" := Mapped("CHT", "Characters"),
    "07" := Mapped("MCV", "Machines_Vehicles"),
    "08" := Mapped("CLT", "Clothing"),
    "09" := Mapped("ANM", "Animals"),
    "10" := Mapped("BLD", "Buildings"),
    "11" := Mapped("NAT", "Nature")
  ]

  /** A name with an optional code, as looked up for one folder. */
  datatype Lookup = Lookup(name: string, code: Option<string>)

  /** `(base_model_name, base_model_code, category_name, category_code)` */
  datatype FolderInfo = FolderInfo(baseModelName: Option<string>, baseModelCode: Option<string>,
                                   categoryName: Option<string>, categoryCode: Option<string>)

  const Unparsed: FolderInfo := FolderInfo(None, None, None, None)

  /** A known base folder gives its table entry; any other folder keeps its own name and has no code. */
  function BaseModelOf(folder: string): (r: Lookup)
    ensures r.code.Some? <==> folder in BaseModelMap
    ensures folder in BaseModelMap ==> r.name == BaseModelMap[folder].name && r.code.value == BaseModelMap[folder].code
    ensures folder !in BaseModelMap ==> r.name == folder
  {
    if folder in BaseModelMap then Lookup(BaseModelMap[folder].name, Some(BaseModelMap[folder].code))
    else Lookup(folder, None)
  }

  /** `category_folder.split(" ")[0].strip()` */
  function CategoryIndex(folder: string): string
  {
    Strip(Split(folder, ' ')[0])
  }

  /** A category folder whose index is in the table gives its entry; any other keeps the whole folder name. */
  function CategoryOf(folder: string): (r: Lookup)
    ensures r.code.Some? <==> CategoryIndex(folder) in CategoryIndexMap
    ensures CategoryIndex(folder) in CategoryIndexMap ==>
              r.name == CategoryIndexMap[CategoryIndex(folder)].name
              && r.code.value == CategoryIndexMap[CategoryIndex(folder)].code
    ensures CategoryIndex(folder) !in CategoryIndexMap ==> r.name == folder
  {
    var index := CategoryIndex(folder);
    if index in CategoryIndexMap then Lookup(CategoryIndexMap[index].name, Some(CategoryIndexMap[index].code))
    else Lookup(folder, None)
  }

  function Classified(base: Lookup, category: Lookup): FolderInfo
  {
    FolderInfo(Some(base.name), base.code, Some(category.name), category.code)
  }

  /**
   * `parse_base_and_category`: the base folder is always the first part and
   * the category folder the second; a path of fewer than three parts, or
   * one `relpath` cannot express, is not classified.
   */
  function ParseBaseAndCategory(relPath: Option<string>, sep: char): (r: FolderInfo)
    ensures r.baseModelName.Some? <==> relPath.Some? && |Split(relPath.value, sep)| >= 3
    ensures r.baseModelName.None? ==> r == Unparsed
    ensures r.baseModelName.Some? ==> r.categoryName.Some?
  {
    if relPath.None? then Unparsed
    else
      var parts := Split(relPath.value, sep);
      if |parts| < 3 then Unparsed
      else Classified(BaseModelOf(parts[0]), CategoryOf(parts[1]))
  }

  /** A path made of a base folder, a category folder and at least one more part is classified by those two folders. */
  lemma ParseOfFolders(base: string, category: string, rest: seq<string>, sep: char)
    requires |rest| >= 1 && Lacks(base, sep) && Lacks(category, sep)
    requires forall i | 0 <= i < |rest| :: Lacks(rest[i], sep)
    ensures ParseBaseAndCategory(Some(Join([base, category] + rest, sep)), sep)
            == Classified(BaseModelOf(base), CategoryOf(category))
  {
    var parts := [base, category] + rest;
    assert parts[0] == base && parts[1] == category;
    forall i | 0 <= i < |parts| ensures Lacks(parts[i], sep) {
      if i >= 2 {
        assert parts[i] == rest[i - 2];
      }
    }
    SplitOfJoin(parts, sep);
    ParseOfParts(Join(parts, sep), parts, sep);
  }

  /** A path that splits into `parts` (three or more) is classified by its first two parts. */
  lemma ParseOfParts(path: string, parts: seq<string>, sep: char)
    requires Split(path, sep) == parts && |parts| >= 3
    ensures ParseBaseAndCategory(Some(path), sep) == Classified(BaseModelOf(parts[0]), CategoryOf(parts[1]))
  {
  }

  /** Only the first two folders matter: deeper folders and the file name never change the classification. */
  lemma ParseDependsOnFirstTwoFolders(a: string, b: string, sep: char)
    requires |Split(a, sep)| >= 3 && |Split(b, sep)| >= 3
    requires Split(a, sep)[0] == Split(b, sep)[0] && Split(a, sep)[1] == Split(b, sep)[1]
    ensures ParseBaseAndCategory(Some(a), sep) == ParseBaseAndCategory(Some(b), sep)
  {
  }

  /** The category index is the text before the first space, stripped. */
  lemma CategoryIndexIsFirstWord(folder: string)
    ensures exists head: string :: CategoryIndex(folder) == Strip(head) && Lacks(head, ' ')
              && (folder == head || StartsWith(folder, head + " "))
  {
    var parts := Split(folder, ' ');
    JoinOfSplit(folder, ' ');
    SplitPartsLackSeparator(folder, ' ');
    JoinHead(parts, ' ');
    assert Lacks(parts[0], ' ');
  }

  lemma {:induction false} JoinHead(parts: seq<string>, sep: char)
    requires |parts| >= 1
    ensures |parts| == 1 ==> Join(parts, sep) == parts[0]
    ensures |parts| > 1 ==> StartsWith(Join(parts, sep), parts[0] + [sep])
    decreases |parts|
  {
    var n := |parts|;
    if n > 1 {
      var ps := parts[..n - 1];
      JoinHead(ps, sep);
      var j := Join(ps, sep);
      var h := parts[0] + [sep];
      if n == 2 {
        assert Join(parts, sep) == parts[0] + [sep] + parts[1];
        assert (parts[0] + [sep] + parts[1])[..|h|] == h;
      } else {
        assert Join(parts, sep) == j + [sep] + parts[n - 1];
        assert (j + [sep] + parts[n - 1])[..|h|] == j[..|h|];
      }
    }
  }

  /** `os.path.basename`: the text after the last separator. */
  function Basename(path: string, sep: char): string
  {
    var parts := Split(path, sep);
    parts[|parts| - 1]
  }

  /** The base name is a suffix of the path that contains no separator and, unless it is the whole path, follows one. */
  lemma BasenameIsLastPart(path: string, sep: char)
    ensures Lacks(Basename(path, sep), sep) && EndsWith(path, Basename(path, sep))
    ensures path == Basename(path, sep) || EndsWith(path, [sep] + Basename(path, sep))
  {
    var parts := Split(path, sep);
    JoinOfSplit(path, sep);
    SplitPartsLackSeparator(path, sep);
    var b := parts[|parts| - 1];
    if |parts| > 1 {
      var j := Join(parts[..|parts| - 1], sep);
      assert path == j + ([sep] + b);
      assert path[|path| - |[sep] + b|..] == [sep] + b;
      assert path[|path| - |b|..] == b;
    }
  }

  /** The catalogue record of one file (`LoraRecord` of the skeleton). */
  datatype CatalogRecord = CatalogRecord(
    filePath: string,
    filename: string,
    info: FolderInfo,
    loraType: Option<string>,
    rank: Option<int>,
    blockWeights: Option<seq<real>>,
    clinkProfileName: Option<string>)

  /** `build_lora_record` for an already normalised path. */
  function BuildLoraRecord(filePathNorm: string, relPath: Option<string>, sep: char): (r: CatalogRecord)
    ensures r.filePath == filePathNorm && Lacks(r.filename, sep) && EndsWith(filePathNorm, r.filename)
    ensures r.info == ParseBaseAndCategory(relPath, sep)
    ensures r.loraType.None? && r.rank.None? && r.blockWeights.None? && r.clinkProfileName.None?
  {
    BasenameIsLastPart(filePathNorm, sep);
    CatalogRecord(filePathNorm, Basename(filePathNorm, sep), ParseBaseAndCategory(relPath, sep), None, None, None, None)
  }

  /** A three-part path: base folder, category folder, file name. */
  lemma ParseOfThreeParts(base: string, category: string, file: string, sep: char)
    requires Lacks(base, sep) && Lacks(category, sep) && Lacks(file, sep)
    ensures ParseBaseAndCategory(Some(Join([base, category, file], sep)), sep)
            == Classified(BaseModelOf(base), CategoryOf(category))
  {
    ParseOfFolders(base, category, [file], sep);
    assert [base, category] + [file] == [base, category, file];
  }

  /** Splitting past the first separator never changes the first part. */
  lemma {:induction false} SplitHead(head: string, rest: string, sep: char)
    requires Lacks(head, sep)
    ensures |Split(head + [sep] + rest, sep)| >= 2 && Split(head + [sep] + rest, sep)[0] == head
    decreases |rest|
  {
    if rest == [] {
      SplitAppendPlain([], head, sep);
      assert [] + head == head && "" + head == head;
      assert Split([], sep) == [""];
      SplitSnoc(head, sep, sep);
      assert head + [sep] + rest == head + [sep];
    } else {
      var r := rest[..|rest| - 1];
      SplitHead(head, r, sep);
      assert head + [sep] + rest == (head + [sep] + r) + [rest[|rest| - 1]];
      SplitSnoc(head + [sep] + r, rest[|rest| - 1], sep);
    }
  }

  /**
   * A folder named `NN - Title` (or `NN Title`) has index `NN`, whatever
   * the title, so it gets the table's entry for `NN` when there is one.
   */
  lemma NumberedCategory(index: string, title: string)
    requires |index| == 2 && IsDigit(index[0]) && IsDigit(index[1])
    ensures CategoryIndex(index + " " + title) == index
  {
    assert Lacks(index, ' ');
    SplitHead(index, title, ' ');
    assert index + " " + title == index + [' '] + title;
    StripNoSpace(index);
  }
}
