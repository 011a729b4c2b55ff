/** SaveSystem (Assets/Scripts/SaveSystem/SaveSystem.cs) over the SaveData
    record (Assets/Scripts/SaveSystem/SaveData.cs): one save slot, kept in
    PlayerPrefs under the key "save". PlayerPrefs is a key-value store and the
    JSON encoding is the identity, so the store maps keys to SaveData records. */
module SaveSystem {
  import opened Common

  /** The key of the single save slot. */
  const SaveKey: string := "save"

  /** SaveData; moedasColetadas keeps its default unless some writer sets it. */
  datatype SaveData = SaveData(sceneName: string, playerX: real, playerY: real, vidaAtual: int, moedasColetadas: int)

  type Store = map<string, SaveData>

  /** The record SaveGame writes: scene, position and health; the coin field
      stays at the int default 0. */
  function Recorded(scene: string, x: real, y: real, health: int): (d: SaveData)
    ensures d.sceneName == scene && d.playerX == x && d.playerY == y && d.vidaAtual == health
    ensures d.moedasColetadas == 0
  {
    SaveData(scene, x, y, health, 0)
  }

  predicate HasSave(store: Store) {
    SaveKey in store
  }

  function LoadGame(store: Store): (r: Option<SaveData>)
    ensures r.None? <==> !HasSave(store)
    ensures r.Some? ==> r.value == store[SaveKey]
  {
    if SaveKey !in store then None else Some(store[SaveKey])
  }

  function Saved(store: Store, d: SaveData): (r: Store)
    ensures HasSave(r)
    ensures forall k :: k != SaveKey ==> (k in r <==> k in store)
    ensures forall k :: k != SaveKey && k in store ==> r[k] == store[k]
  {
    store[SaveKey := d]
  }

  function Deleted(store: Store): (r: Store)
    ensures !HasSave(r)
    ensures forall k :: k != SaveKey ==> (k in r <==> k in store)
    ensures forall k :: k in r ==> r[k] == store[k]
  {
    store - {SaveKey}
  }

  /** HasSave answers whether LoadGame finds a record: true after a save,
      false after a delete. */
  lemma HasSaveIffLoads(store: Store, d: SaveData)
    ensures HasSave(store) <==> LoadGame(store).Some?
    ensures HasSave(Saved(store, d)) && !HasSave(Deleted(store))
    ensures !HasSave(Deleted(Saved(store, d)))
  {
  }

  /** What is saved is what is loaded, and coins always load as 0. */
  lemma SaveThenLoad(store: Store, scene: string, x: real, y: real, health: int)
    ensures LoadGame(Saved(store, Recorded(scene, x, y, health))) == Some(Recorded(scene, x, y, health))
    ensures LoadGame(Saved(store, Recorded(scene, x, y, health))).value.moedasColetadas == 0
  {
  }

  /** There is one slot: the later save wins. */
  lemma LaterSaveWins(store: Store, d1: SaveData, d2: SaveData)
    ensures Saved(Saved(store, d1), d2) == Saved(store, d2)
    ensures LoadGame(Saved(Saved(store, d1), d2)) == Some(d2)
  {
  }

  /** Deleting forgets the save, whatever came before. */
  lemma DeleteForgets(store: Store, d: SaveData)
    ensures LoadGame(Deleted(Saved(store, d))) == None
    ensures Deleted(Saved(store, d)) == Deleted(store)
  {
  }

  /** PlayerPrefs. */
  class PlayerPrefs {
    var entries: Store

    constructor (initial: Store)
      ensures entries == initial
    {
      entries := initial;
    }
  }

  /** SaveGame: the scene name, the player's position and current health go
      into the slot (PlayerPrefs.Save's flush to disk is not modelled). */
  method SaveGame(prefs: PlayerPrefs, scene: string, x: real, y: real, currentHealth: int)
    modifies prefs
    ensures prefs.entries == Saved(old(prefs.entries), Recorded(scene, x, y, currentHealth))
    ensures LoadGame(prefs.entries) == Some(Recorded(scene, x, y, currentHealth))
  {
    var data := SaveData("", 0.0, 0.0, 0, 0);
    data := data.(sceneName := scene);
    data := data.(playerX := x, playerY := y);
    data := data.(vidaAtual := currentHealth);
    prefs.entries := prefs.entries[SaveKey := data];
  }

  method DeleteSave(prefs: PlayerPrefs)
    modifies prefs
    ensures prefs.entries == Deleted(old(prefs.entries))
  {
    prefs.entries := prefs.entries - {SaveKey};
  }
}
