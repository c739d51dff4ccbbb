/**
 * Attribute names under which the component extensions store their settings.
 * The constants class that defines them is not part of this model: the strings
 * below stand in for its values, and the proofs rely only on the names being
 * pairwise different up to case.
 */
module UiConst {
  import opened AttributeLists

  const Id: string := "id"
  const Style: string := "style"
  const Text: string := "text"
  const Disabled: string := "disabled"
  const FontAwesomeIcon: string := "fa-icon"
  const MaterialIcon: string := "mat-icon"
  const Size: string := "size"
  const Spin: string := "spin"
  const Rotate: string := "rotate"
  const Child: string := "child"
  const ChildClass: string := "child-class"

  /** The keys written by the icon setters denote different attributes. */
  lemma IconKeysDistinct()
    ensures !SameName(FontAwesomeIcon, MaterialIcon)
    ensures !SameName(Child, ChildClass)
    ensures !SameName(Size, Spin) && !SameName(Size, Rotate) && !SameName(Spin, Rotate)
    ensures !SameName(FontAwesomeIcon, Child) && !SameName(FontAwesomeIcon, ChildClass)
  {
    assert Fold(FontAwesomeIcon)[0] == 'f' && Fold(MaterialIcon)[0] == 'm';
    assert Fold(Size)[1] == 'i' && Fold(Spin)[1] == 'p';
    assert Fold(FontAwesomeIcon)[0] == 'f' && Fold(Child)[0] == 'c';
    assert Fold(FontAwesomeIcon)[0] == 'f' && Fold(ChildClass)[0] == 'c';
  }

}

/**
 * The enumerations the icon setters take. Each member is known only by the
 * name its `ToString()` yields.
 */
module Enums {

  datatype FontAwesomeIcon = FontAwesomeIcon(member: string) {
    function ToString(): string { member }
  }

  datatype MaterialIcon = MaterialIcon(member: string) {
    function ToString(): string { member }
  }

  datatype IconSize = IconSize(member: string) {
    function ToString(): string { member }
  }

  datatype RotateType = RotateType(member: string) {
    function ToString(): string { member }
  }

}
