/**
 * The record of one generated class: what the target file declares (its
 * tags, its name and its package), fixed once built, and the output name and
 * package, which the processor and its caller overwrite.
 */
module Data {
  import opened Wrappers

  class BuildData {
    /** Tag name to the text between its parentheses. */
    const annotations: map<string, string>
    const className: string
    /** None when the target file has no package line. */
    const classPackage: Option<string>

    /** None (null) until the caller names the output class. */
    var outputClassName: Option<string>
    var outputClassPackage: Option<string>

    constructor (annotationToData: map<string, string>, classPackage: Option<string>, className: string)
      ensures this.annotations == annotationToData
      ensures this.className == className && this.classPackage == classPackage
      ensures outputClassName.None?
      ensures outputClassPackage == classPackage
    {
      this.annotations := annotationToData;
      this.className := className;
      this.classPackage := classPackage;
      outputClassName := None;
      outputClassPackage := classPackage;
    }
  }
}
