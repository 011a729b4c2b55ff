/** VidaUIController of the HUD (Assets/Scripts/HUD/VidaUIController.cs): the
    health bar as a row of fragment images; UpdateVida shows the full sprite on
    the first currentHealth fragments and the empty sprite on the rest, and
    does nothing without a player. Each fragment is one Image, so the array
    holds the sprite each Image shows. */
module HudVidaUIController {
  import opened Common
  import PC = PlayerControllerV24

  /** Mathf.Clamp on ints. */
  function Clamp(x: int, lo: int, hi: int): (r: int)
    requires lo <= hi
    ensures lo <= r <= hi
    ensures lo <= x <= hi ==> r == x
    ensures x < lo ==> r == lo
    ensures x > hi ==> r == hi
  {
    if x < lo then lo else if x > hi then hi else x
  }

  /** The sprites of n fragments for a health value. */
  function Fragments(n: nat, health: int, full: Option<Sprite>, empty: Option<Sprite>): (r: seq<Option<Sprite>>)
    ensures |r| == n
    ensures forall i :: 0 <= i < n ==> r[i] == (if i < health then full else empty)
  {
    seq(n, i => if i < health then full else empty)
  }

  /** The full fragments form a prefix of length clamp(health, 0, n), and the
      rest are empty. */
  lemma FullPrefix(n: nat, health: int, full: Option<Sprite>, empty: Option<Sprite>)
    ensures var k := Clamp(health, 0, n);
            Fragments(n, health, full, empty)[..k] == seq(k, _ => full)
            && Fragments(n, health, full, empty)[k..] == seq(n - k, _ => empty)
    ensures health <= 0 ==> Fragments(n, health, full, empty) == seq(n, _ => empty)
    ensures health >= n ==> Fragments(n, health, full, empty) == seq(n, _ => full)
  {
    var k := Clamp(health, 0, n);
    var r := Fragments(n, health, full, empty);
    assert r[..k] == seq(k, _ => full);
    assert r[k..] == seq(n - k, _ => empty);
  }

  class VidaUIController {
    const fragmentos: array<Option<Sprite>>
    const fragmentoCheio: Option<Sprite>
    const fragmentoVazio: Option<Sprite>
    const player: Option<PC.PlayerController2D>

    constructor (fragmentos: array<Option<Sprite>>, cheio: Option<Sprite>, vazio: Option<Sprite>,
                 player: Option<PC.PlayerController2D>)
      ensures this.fragmentos == fragmentos && fragmentoCheio == cheio && fragmentoVazio == vazio
      ensures this.player == player
    {
      this.fragmentos := fragmentos;
      fragmentoCheio := cheio;
      fragmentoVazio := vazio;
      this.player := player;
    }

    method UpdateVida()
      modifies fragmentos
      ensures player.None? ==> fragmentos[..] == old(fragmentos[..])
      ensures player.Some? ==>
                fragmentos[..] == Fragments(fragmentos.Length, player.value.life.currentHealth, fragmentoCheio, fragmentoVazio)
    {
      if player.None? { return; }
      var health := player.value.life.currentHealth;
      for i := 0 to fragmentos.Length
        invariant fragmentos[..i] == Fragments(fragmentos.Length, health, fragmentoCheio, fragmentoVazio)[..i]
      {
        if i < health {
          fragmentos[i] := fragmentoCheio;
        } else {
          fragmentos[i] := fragmentoVazio;
        }
      }
    }
  }
}
