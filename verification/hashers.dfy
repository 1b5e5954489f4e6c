/** Password hashing as the settings model sees it.

    Django's `make_password` and `check_password` are a foreign library:
    salted, iterated, and not something this model re-implements. A hasher
    is therefore a pair of functions supplied from outside, and the only
    thing the rest of the model relies on is that the pair is sound: every
    encoding `make` produces is non-empty and is accepted by `check` for
    the password it was made from. The salt is the randomness of
    `make_password`, passed in as a parameter.
 */
module Hashers {

  /** `make(raw, salt)` encodes a raw password; `check(raw, encoded)` decides
      whether `encoded` is an encoding of `raw`. */
  datatype Hasher = Hasher(make: (string, string) -> string, check: (string, string) -> bool)

  /** The hasher keeps its one promise: whatever is made verifies, and is never empty. */
  ghost predicate Sound(h: Hasher) {
    forall raw, salt :: h.make(raw, salt) != "" && h.check(raw, h.make(raw, salt))
  }

  /** `check_password(raw, encoded)`. */
  predicate Verifies(h: Hasher, raw: string, encoded: string) {
    h.check(raw, encoded)
  }

  /** `make_password(raw)`, with the salt it would draw at random made explicit. */
  function MakePassword(h: Hasher, raw: string, salt: string): (encoded: string)
    ensures Sound(h) ==> encoded != "" && Verifies(h, raw, encoded)
  {
    h.make(raw, salt)
  }

  /** Soundness is not an empty assumption: some hasher meets it. */
  lemma SoundHasherExists()
    ensures exists h :: Sound(h)
  {
    var h := Hasher((raw: string, salt: string) => "plain$" + raw,
                    (raw: string, encoded: string) => encoded == "plain$" + raw);
    assert Sound(h);
  }
}
