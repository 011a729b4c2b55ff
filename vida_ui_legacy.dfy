/** The older VidaUIController (Assets/Scripts/VidaUIController.cs): the same
    fragment update as the HUD's, without the guard for a missing player. */
module VidaUIController {
  import opened Common
  import PC = PlayerControllerV24
  import Hud = HudVidaUIController

  class VidaUIController {
    const fragmentos: array<Option<Sprite>>
    const fragmentoCheio: Option<Sprite>
    const fragmentoVazio: Option<Sprite>
    const player: PC.PlayerController2D

    constructor (fragmentos: array<Option<Sprite>>, cheio: Option<Sprite>, vazio: Option<Sprite>,
                 player: PC.PlayerController2D)
      ensures this.fragmentos == fragmentos && fragmentoCheio == cheio && fragmentoVazio == vazio
      ensures this.player == player
    {
      this.fragmentos := fragmentos;
      fragmentoCheio := cheio;
      fragmentoVazio := vazio;
      this.player := player;
    }

    /** Every fragment is written; fragment i is full exactly when i < currentHealth. */
    method UpdateVida()
      modifies fragmentos
      ensures fragmentos[..] == Hud.Fragments(fragmentos.Length, player.life.currentHealth, fragmentoCheio, fragmentoVazio)
    {
      for i := 0 to fragmentos.Length
        invariant fragmentos[..i] == Hud.Fragments(fragmentos.Length, player.life.currentHealth, fragmentoCheio, fragmentoVazio)[..i]
      {
        if i < player.life.currentHealth {
          fragmentos[i] := fragmentoCheio;
        } else {
          fragmentos[i] := fragmentoVazio;
        }
      }
    }
  }
}
