/**
 * The effect payload of shared/src/lib.rs:151-156, kept apart from module
 * GameEffect so that the string-table proofs there do not carry the
 * envelope types.
 */
module EffectData {
  import GameEffect
  import Protocol

  /** An effect applied to an entity: a built-in kind, a custom one by name, or a serialized projectile. */
  datatype GameEffectData =
    | Normal(effect: GameEffect.GameEffectEnum)
    | Custom(name: string)
    | Projectile(serialized: Protocol.Bytes)
}
