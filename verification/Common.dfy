/** Small types shared by the modules of the project. */
module Common {

  datatype Option<+T> = None | Some(value: T)

  /** A value, or the exception the operation raised instead of it. */
  datatype Result<+T, +E> = Ok(value: T) | Raised(error: E)

  /** The dataset providers, each with its own directory, link and generations. */
  datatype Provider = Osm | Tomtom | Here

  /** A graph generation: a directory named by the second its build began. */
  datatype Gen = Gen(provider: Provider, stamp: nat)

  /** Smallest integer not below `x`. */
  function Ceil(x: real): int {
    -((-x).Floor)
  }

  function Max(a: int, b: int): int {
    if a < b then b else a
  }

  function Min(a: int, b: int): int {
    if a < b then a else b
  }
}
