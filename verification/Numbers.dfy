/** Arithmetic shared by the models. */
module Numbers {
  function Min(a: nat, b: nat): nat {
    if a < b then a else b
  }
}
