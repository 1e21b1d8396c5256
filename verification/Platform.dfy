/** Library functions the converter calls and this model leaves uninterpreted. */
module Platform {
  import opened Wrappers
  import opened Compose

  datatype Platform = Platform(
    parseQuantity: string -> Option<string>,                 // resource.ParseQuantity
    joinPath: (string, string) -> string,                    // path.Join
    baseName: string -> string,                              // path.Base
    labelOrder: map<string, Constraint> -> seq<string>)      // order in which a range statement walks MatchLabels

  ghost predicate Enumerates(keys: seq<string>, m: map<string, Constraint>) {
    && (forall k :: k in keys <==> k in m)
    && (forall i, j :: 0 <= i < j < |keys| ==> keys[i] != keys[j])
  }

  /** The walk visits every key once. */
  ghost predicate Valid(p: Platform) {
    forall m :: Enumerates(p.labelOrder(m), m)
  }

  /** Two evaluations on one platform differ at most in the order maps are walked. */
  ghost predicate SameLibraries(p: Platform, q: Platform) {
    p.parseQuantity == q.parseQuantity && p.joinPath == q.joinPath && p.baseName == q.baseName
  }
}
