# Echoes of Sorrow: a verified model of the game's engine-free logic

Echoes of Sorrow is a 2D action platformer built on Unity. Its scripts hold a
small amount of real logic. This logic lives in integer counters, boolean flags,
small arrays of slots and a few strings, which the engine callbacks (`Update`,
`OnTriggerEnter2D`, button handlers, coroutines) change in place. This project
models that logic in Dafny and proves the rules the scripts implement.

What is modelled:

- **The player controller**, in its three versions:
  - `Assets/Scripts/Player/PlayerController2d.cs` (v2.4): timers, input, the
    dash gate, collisions, the jump choice, facing, the slice/slash attack combo
    with its queues, damage and death;
  - `Assets/Scripts/PlayerController2d.cs` (v1.2): the `canDash` dash lifecycle
    and the same jump rules;
  - `Assets/Scripts/PlayerController.cs`: coyote time, jump buffer, wall slide,
    wall jump, dash and attack triggers.
- **The enemies**: both `EnemyBase` classes, `CagedShocker`,
  `SpiderController` and `SpiderPatrol`. This covers hit counting, death
  latching, reset, the patrol rule, the attack start and cancel rules, and the
  projectile cooldown.
- **Inventory, cards and shop**: `ItemSlot`, `InventarioController`,
  `CardData`, `InventoryManager`, `DescriptionPanel`, `ShopMenu` and
  `ItemSlotLoja`. This covers first-free filling, one selection per kind,
  equip-by-copy with the effect swap, the health-card arithmetic, the purchase
  latch and the description text.
- **Coins, session and save**: `CoinCollectable`, `CoinUIController`,
  `GameSession` and `SaveSystem` with its `SaveData` record.
- **Screens**: the lore pager and typewriter (`LoreIntroController`) and the
  two health HUDs (`VidaUIController`).

How the engine is modelled:

- Each C# file is one Dafny module. This matters because the repository
  declares `PlayerController2D`, `EnemyBase` and `VidaUIController` twice
  each. Three support modules are shared and map to no single C# file:
  `Common` (nullable values, the `Mathf.Min`/`Max` clamps), `DecimalText`
  (the decimal text C# gives an `int`) and `Enemies` (the per-frame physics
  answers the enemy scripts read, their facing, the patrol rule and the
  projectile shot).
- A `MonoBehaviour` whose fields change becomes a Dafny `class`. Its fields are
  grouped into small records, and `Snapshot()` collects them. Each method
  states its whole new state as a pure step function of the old state
  (`ensures Snapshot() == Step(old(Snapshot()), …)`). The rules the source
  promises are proved as lemmas about those step functions, over single
  frames and over runs of frames.
- The engine's answers become inputs:
  - physics queries (`OverlapBox`, velocities) and key presses are fields of
    a per-frame `Frame` value;
  - timers are whole ticks: `dt` is the frame's `Time.deltaTime` and `now` is
    `Time.time`;
  - a coroutine becomes one event method per resumption point (for example
    "the dash duration has elapsed");
  - objects the scripts look up (`FindObjectOfType`, `GameSession.Instance`,
    `GetComponent`) become parameters, and `Option` stands for a reference
    that may be null.
- Forces are not simulated. Where the sign or the presence of a push is part
  of a rule, the model returns it as a value (`Impulse`, `Shot`).
- Inheritance: `CagedShocker` extends the newer `EnemyBase` and `SpiderPatrol`
  extends the older one. Both are modelled by composition: the subclass holds
  a `base` object, and the overridden `CanMove` becomes a constant of the base.
- `InventoryManager.ToggleUI` calls `uiController.RefreshSlots()`, which
  `InventarioController.cs` does not define; the model returns a `refresh`
  flag in its place. The v2.4 dash gate is listed under "## Findings".


## Model

| member | source | states |
|---|---|---|
| CardData.HealthApplied | Assets/Prefabs/Inventario/CardData.cs:33-35 | the Health effect raises maxHealth by the amount and currentHealth by the amount capped at the new maximum; a capped player stays capped and, if already capped, gains exactly the amount; no other field changes |
| CardData.HealthRemoved | Assets/Prefabs/Inventario/CardData.cs:57-59 | removing a Health card lowers maxHealth by the amount but never below 1, cuts currentHealth down to the new maximum and never raises it; no other field changes |
| CardData.Applied | Assets/Prefabs/Inventario/CardData.cs:31-49 | ApplyEffect changes the health fields only for a Health card; the Damage and SpeedBoost branches leave the modelled player state alone |
| CardData.Removed | Assets/Prefabs/Inventario/CardData.cs:55-73 | RemoveEffect changes the health fields only for a Health card |
| CardData.ApplyThenRemove | Assets/Prefabs/Inventario/CardData.cs:28-74 | applying then removing a card gives back the maximum health (when it was at least 1); for a Health card on a capped player the heal is kept up to the old maximum, so currentHealth ends at Min(currentHealth + amount, maxHealth); non-Health cards leave the health fields unchanged |
| CardData.EffectsKeepCap | Assets/Prefabs/Inventario/CardData.cs:31-59 | both effects keep currentHealth <= maxHealth |
| CardData.ApplyEffect | Assets/Prefabs/Inventario/CardData.cs:28-50 | the player's health fields become Applied(card, old fields) |
| CardData.RemoveEffect | Assets/Prefabs/Inventario/CardData.cs:52-74 | the player's health fields become Removed(card, old fields) |
| DescriptionPanel.Caption | Assets/Prefabs/Inventario/DescriptionPanel.cs:27 | the text is the name in bold tags, a newline and the description, with null strings read as empty |
| DescriptionPanel.Show | Assets/Prefabs/Inventario/DescriptionPanel.cs:14-28 | a null or non-full slot hides the image and blanks the text, keeping the sprite; a full slot enables the image with the slot's sprite and shows its caption |
| DescriptionPanel.ShownIffFull | Assets/Prefabs/Inventario/DescriptionPanel.cs:16-27 | the image is enabled, and the text non-empty, exactly when the slot is present and full |
| DescriptionPanel.EmptySlotLikeNull | Assets/Prefabs/Inventario/DescriptionPanel.cs:16 | a slot that is not full is shown exactly like no slot |
| DescriptionPanel.CaptionSeparatesNames | Assets/Prefabs/Inventario/DescriptionPanel.cs:27 | with equal descriptions, equal captions mean equal item names |
| ItemSlot.Stored | Assets/Prefabs/Inventario/ItemSlot.cs:41-51 | the four-argument AddItem stores the name, sprite, description and card and marks the slot full, whatever it held before |
| ItemSlot.StoredCard | Assets/Prefabs/Inventario/InventarioController.cs:172-175 | a card is stored with its own name, artwork and description and the card itself |
| ItemSlot.ItemSlot.constructor | Assets/Prefabs/Inventario/ItemSlot.cs:23-30 | a freshly awoken slot is empty: no data, not full, image off, not highlighted |
| ItemSlot.ItemSlot.AddItemWithoutCard | Assets/Prefabs/Inventario/ItemSlot.cs:35-38 | the three-argument AddItem is the four-argument one with a null card |
| ItemSlot.ItemSlot.AddItem | Assets/Prefabs/Inventario/ItemSlot.cs:41-51 | the slot's data becomes Stored(...) even when it was full, and its image is enabled with the new sprite |
| ItemSlot.ItemSlot.Clear | Assets/Prefabs/Inventario/ItemSlot.cs:53-62 | every data field becomes null and the slot not full; the image is cleared and disabled; the highlight is switched off when it exists |
| ItemSlot.ItemSlot.OnPointerClick | Assets/Prefabs/Inventario/ItemSlot.cs:65-70 | the click is forwarded to SelectSlot whatever the button, because only the log line is guarded |
| ItemSlot.ItemSlot.SetSelected | Assets/Prefabs/Inventario/ItemSlot.cs:72 | the highlight follows the argument when the slot has one; nothing else changes |
| InventarioController.FirstFree | Assets/Prefabs/Inventario/InventarioController.cs:53-60 | the index found is the first slot that is not full, every slot before it is full, and there is none exactly when every slot is full |
| InventarioController.Filled | Assets/Prefabs/Inventario/InventarioController.cs:53-61 | adding writes the item into the first free slot and nowhere else; with every slot full the contents stay as they were |
| InventarioController.FillKeepsItems | Assets/Prefabs/Inventario/InventarioController.cs:53-61 | adding never overwrites a full slot, the item is stored when there was room, and the number of full slots grows by exactly one when there was room and otherwise stays |
| InventarioController.CountUpdate | Assets/Prefabs/Inventario/InventarioController.cs:57 | filling one empty slot raises the count of full slots by one |
| InventarioController.EquipEffect | Assets/Prefabs/Inventario/InventarioController.cs:127-148 | equipping removes the old consume-slot card's effect, if any, before applying the new card's effect, if any |
| InventarioController.ReequipDoesNotStack | Assets/Prefabs/Inventario/InventarioController.cs:127-148 | equipping a Health card over the same card leaves maxHealth where it was and health capped |
| InventarioController.DataOf | Assets/Prefabs/Inventario/InventarioController.cs:16-19 | the contents of a slot array, slot by slot |
| InventarioController.OneHighlightPerKind | Assets/Prefabs/Inventario/InventarioController.cs:72-85 | under the selection invariant at most one slot of a kind is highlighted |
| InventarioController.ViewsOf | Assets/Prefabs/Inventario/ItemSlot.cs:17-19 | what each slot of an array shows, slot by slot |
| InventarioController.FilledViews | Assets/Prefabs/Inventario/InventarioController.cs:53-61 | after adding, only the first free slot's view changes: its image is enabled with the item's sprite and its highlight is kept |
| InventarioController.Lit | Assets/Prefabs/Inventario/ItemSlot.cs:46-47 | AddItem's image: enabled, with the new sprite, highlight kept |
| InventarioController.FillKeepsShown | Assets/Prefabs/Inventario/InventarioController.cs:53-61 | filling keeps every image enabled exactly when its slot is full, showing the stored sprite |
| InventarioController.CopyKeepsShown | Assets/Prefabs/Inventario/InventarioController.cs:135-140 | copying a full slot's contents keeps every image showing its slot's contents |
| InventarioController.MovedKeepsShown | Assets/Prefabs/Inventario/InventarioController.cs:68-102 | moving highlights over unchanged contents keeps every image showing its slot's contents |
| InventarioController.InventarioController.SelectInventory | Assets/Prefabs/Inventario/InventarioController.cs:72-78 | an inventory slot becomes the inventory selection, the panel shows it, only highlights of inventory slots move, and the consume slots do not change |
| InventarioController.InventarioController.SelectConsume | Assets/Prefabs/Inventario/InventarioController.cs:79-85 | a consume slot becomes the consume selection, the panel shows it, only highlights of consume slots move, and the inventory slots do not change |
| InventarioController.InventarioController.constructor | Assets/Prefabs/Inventario/InventarioController.cs:27-46 | after Awake every inventory slot and every consume slot is empty, its image is disabled with no sprite and its highlight is off, nothing is selected, and the invariant holds: selections in range and highlighted, every image showing its slot's contents |
| InventarioController.InventarioController.ClearAll | Assets/Prefabs/Inventario/InventarioController.cs:41-45 | the loop clears every slot of the array: its data is null and not full, its image is disabled with no sprite, and its highlight is off (a slot without a highlight child keeps its flag) |
| InventarioController.InventarioController.FillFirstFree | Assets/Prefabs/Inventario/InventarioController.cs:53-61 | the inventory contents become Filled(old contents, item) and the views FilledViews(old contents, old views, sprite): only the first free slot changes, and its image is lit with the sprite; the consume slots' contents and views do not change |
| InventarioController.InventarioController.FillFirst | Assets/Prefabs/Inventario/InventarioController.cs:53-60 | the loop that stops at the first free slot leaves the contents as Filled(old contents, item) and the views as FilledViews(old contents, old views, sprite), so every highlight is kept |
| InventarioController.InventarioController.AddItem | Assets/Prefabs/Inventario/InventarioController.cs:51-62 | a picked-up item without a card goes into the first free inventory slot, whose image is lit with the item's sprite; every other slot's contents and view, the consume slots and the selections are kept |
| InventarioController.InventarioController.AddCard | Assets/Prefabs/Inventario/InventarioController.cs:160-180 | a card goes into the first free inventory slot with its name, artwork and description, and that slot's image is lit with the artwork; every other slot's contents and view are kept |
| InventarioController.InventarioController.SelectSlot | Assets/Prefabs/Inventario/InventarioController.cs:68-89 | the slot becomes the selection of its kind, the previous selection of that kind is unhighlighted, the other kind's selection and views are kept, the panel shows the slot, no slot's contents change, and only highlights move: every image stays as it was |
| InventarioController.InventarioController.Reselect | Assets/Prefabs/Inventario/InventarioController.cs:74-77 | after switching the highlight only the newly selected slot of the kind is highlighted; contents and images are kept, and a slot without a highlight child is untouched |
| InventarioController.InventarioController.DeselectAll | Assets/Prefabs/Inventario/InventarioController.cs:93-102 | both selections become null, no slot is highlighted, the panel shows nothing, no slot's contents change and every image stays as it was |
| InventarioController.InventarioController.Unselect | Assets/Prefabs/Inventario/InventarioController.cs:95-96 | after unhighlighting the selection no slot of the kind is highlighted; contents and images are kept |
| InventarioController.InventarioController.UnselectInventory | Assets/Prefabs/Inventario/InventarioController.cs:95-98 | the inventory selection becomes null with no inventory slot highlighted, only inventory highlights move, and the consume slots do not change |
| InventarioController.InventarioController.UnselectConsume | Assets/Prefabs/Inventario/InventarioController.cs:96-99 | the consume selection becomes null with no consume slot highlighted, only consume highlights move, and the inventory slots do not change |
| InventarioController.InventarioController.EquipSelectedItem | Assets/Prefabs/Inventario/InventarioController.cs:110-156 | without both selections or with an empty inventory slot nothing changes, slot views included; otherwise the consume slot receives a copy of the inventory item and its image is lit with the item's sprite, the inventory keeps its contents and images, the player's health becomes EquipEffect(old, old card, new card), both selections are cleared and only highlights move elsewhere |
| InventarioController.InventarioController.Equip | Assets/Prefabs/Inventario/InventarioController.cs:126-148 | the copy into the consume slot, whose image is lit with the item's sprite, and the effect swap; the inventory and every other consume slot keep their contents and views |
| InventarioController.InventarioController.Reequip | Assets/Prefabs/Inventario/InventarioController.cs:127-148 | the player's health fields become EquipEffect(old, oldCard, newCard) |
| InventarioController.InventarioController.CopyInto | Assets/Prefabs/Inventario/InventarioController.cs:135-140 | one slot gets the copied contents and its image is lit with the copied sprite; every other slot's contents and view, and every highlight, are kept |
| InventarioController.InventarioController.ClickSlot | Assets/Prefabs/Inventario/ItemSlot.cs:65-70 | a click on a slot, whichever mouse button was used, does what SelectSlot does: the slot becomes the selection of its kind, the panel shows it, no contents change and only highlights move |
| InventoryManager.Toggled | Assets/Prefabs/Inventario/InventoryManager.cs:58-67 | toggling flips isOpen; the UI root is active, and the time scale is 0, exactly when open |
| InventoryManager.ToggleTwice | Assets/Prefabs/Inventario/InventoryManager.cs:58-67 | two toggles give back the open state, and the whole screen state when it was consistent |
| InventoryManager.Equipped | Assets/Prefabs/Inventario/InventoryManager.cs:93-97 | EquipCard writes the card at an in-range index only, and every other entry is kept; an out-of-range index changes nothing |
| InventoryManager.Added | Assets/Prefabs/Inventario/InventoryManager.cs:87-91 | AddCard appends a present card at the end and ignores a null card |
| InventoryManager.AddedOnce | Assets/Prefabs/Inventario/InventoryManager.cs:87-91 | adding a card raises its number of occurrences by exactly one, and adding null changes no count |
| InventoryManager.InventoryManager.constructor | Assets/Prefabs/Inventario/InventoryManager.cs:21-56 | Awake starts an empty card list and an equipped array of consumeSlotCount null entries, with the UI root inactive and the screen closed |
| InventoryManager.InventoryManager.ToggleUI | Assets/Prefabs/Inventario/InventoryManager.cs:58-78 | the screen becomes Toggled(old screen), the player is disabled exactly while the screen is open, opening asks for a refresh and keeps every slot view, closing clears both selections, and no slot's contents or images change |
| InventoryManager.InventoryManager.AddCard | Assets/Prefabs/Inventario/InventoryManager.cs:87-91 | the list becomes Added(old list, card) |
| InventoryManager.InventoryManager.EquipCard | Assets/Prefabs/Inventario/InventoryManager.cs:93-97 | the array becomes Equipped(old array, index, card) |
| ItemSlotLoja.Awoken | Assets/Scripts/ItemSlotLoja.cs:21-32 | Awake shows the card's artwork when both exist, writes a price text that reads back as the price, and hides the highlight and the sold panel when they exist |
| ItemSlotLoja.ItemSlotLoja.constructor | Assets/Scripts/ItemSlotLoja.cs:19-32 | a sale slot starts unsold and shows Awoken(card, price, refs, prefab) |
| ItemSlotLoja.ItemSlotLoja.OnPointerClick | Assets/Scripts/ItemSlotLoja.cs:34-43 | the click reaches the shop exactly when the slot is not sold |
| ItemSlotLoja.ItemSlotLoja.MarkAsSold | Assets/Scripts/ItemSlotLoja.cs:45-52 | the sold latch is set, the sold panel is shown and the highlight dropped when they exist |
| ItemSlotLoja.ItemSlotLoja.Highlight | Assets/Scripts/ItemSlotLoja.cs:54-57 | the highlight follows the argument when it exists; nothing else changes |
| ShopMenu.EffectName | Assets/Scripts/ShopMenu.cs:51 | the effect's name is never empty |
| ShopMenu.EffectNameInjective | Assets/Scripts/ShopMenu.cs:51 | different effects have different names |
| ShopMenu.Shown | Assets/Scripts/ShopMenu.cs:47-54 | selecting shows the card's name, effect name and description and enables the buy button, which differs from the cleared details |
| ShopMenu.Purchase | Assets/Scripts/ShopMenu.cs:65-79 | a buy sells exactly when the price is at most the 1000 coins written first; a sale leaves 1000 minus the price and never a negative amount, and a refusal leaves 1000 |
| ShopMenu.PurchaseBounds | Assets/Scripts/ShopMenu.cs:65-79 | for a non-negative price the coins after a buy are between 0 and 1000, and a sale costs exactly the price |
| ShopMenu.ShopMenu.constructor | Assets/Scripts/ShopMenu.cs:23-26 | Awake records every sale slot, and nothing is selected |
| ShopMenu.ShopMenu.Start | Assets/Scripts/ShopMenu.cs:28-33 | the panel is hidden and the buy button disabled |
| ShopMenu.ShopMenu.OpenShop | Assets/Scripts/ShopMenu.cs:35-40 | the panel is shown, the details are cleared, nothing is selected and no slot is highlighted; the sold latches are kept |
| ShopMenu.ShopMenu.CloseShop | Assets/Scripts/ShopMenu.cs:42-45 | the panel is hidden |
| ShopMenu.ShopMenu.SelectItem | Assets/Scripts/ShopMenu.cs:47-54 | the slot becomes the selection and the details become Shown(its card) |
| ShopMenu.ShopMenu.ClearSlotHighlights | Assets/Scripts/ShopMenu.cs:56-60 | every sale slot's highlight is switched off and every sold latch is kept |
| ShopMenu.ShopMenu.SlotClicked | Assets/Scripts/ItemSlotLoja.cs:34-43 | a click on a sold slot changes nothing; on an unsold slot it leaves only that slot highlighted and selects it |
| ShopMenu.ShopMenu.OnBuyButtonClicked | Assets/Scripts/ShopMenu.cs:62-84 | without a selection nothing changes, and every slot's look is kept; otherwise the coins become Purchase(price).coins, and a sale adds the card to the inventory with its artwork lit, marks only that slot sold, shows its sold panel, switches every highlight off and clears the selection, while a refusal keeps the selection, every slot's look and latch, and the inventory, slot views included |
| ShopMenu.ShopMenu.Sell | Assets/Scripts/ShopMenu.cs:69-78 | the card is added to the first free inventory slot, whose image is lit with the card's artwork, the price is taken off the coins, the slot is latched sold with its sold panel shown, every slot's highlight is switched off, and the selection is cleared |
| ShopMenu.ShopMenu.Settle | Assets/Scripts/ShopMenu.cs:72-78 | the price is taken off the coins, only the bought slot becomes sold and shows its sold panel, every slot's highlight is switched off with nothing else of its look changed, and the details are cleared |
| ShopMenu.ShopMenu.ClearDetails | Assets/Scripts/ShopMenu.cs:86-93 | nothing is selected and the details are cleared with the buy button disabled |
| DecimalText.Digits | Assets/Scripts/Items/Coins/CoinUIController.cs:65 | the decimal digits of a non-negative count: at least one digit and no leading zero |
| DecimalText.Show | Assets/Scripts/Items/Coins/CoinUIController.cs:65 | the text of an int: its digits, with a leading '-' exactly for a negative value |
| DecimalText.ParseDigitsOfDigits | Assets/Scripts/Items/Coins/CoinUIController.cs:65 | reading the digits back gives the count |
| DecimalText.ParseUnsigned | Assets/Scripts/ItemSlotLoja.cs:28 | the text of a non-negative value reads back as that value |
| DecimalText.ParseSigned | Assets/Scripts/ItemSlotLoja.cs:28 | the text of a negative value reads back as that value |
| DecimalText.ParseShow | Assets/Scripts/ItemSlotLoja.cs:28 | every int's text reads back as the int, so the label determines the number |
| DecimalText.ShowInjective | Assets/Scripts/Items/Coins/CoinUIController.cs:65 | different counts never show the same text |
| CoinCollectable.Touched | Assets/Scripts/Items/Coins/CoinCollectable.cs:17-58 | a collected coin or a contact not tagged "Player" changes nothing and adds nothing; a first player contact latches the coin; it adds the coin's value and deactivates the coin only when the collider has a PlayerController2D |
| CoinCollectable.CountedAtMostOnce | Assets/Scripts/Items/Coins/CoinCollectable.cs:19-30 | over any run of contacts a coin adds either nothing or exactly its value, and nothing once latched |
| CoinCollectable.CoinCollectable.constructor | Assets/Scripts/Items/Coins/CoinCollectable.cs:12-15 | a coin starts active and not collected |
| CoinCollectable.CoinCollectable.OnTriggerEnter2D | Assets/Scripts/Items/Coins/CoinCollectable.cs:17-58 | the coin and the player's count follow Touched; on a credited pickup the session's coins equal the player's; the session's health is never touched; without a credit the session keeps its coins; the coin label stays in step with its count |
| CoinUIController.Synced | Assets/Scripts/Items/Coins/CoinUIController.cs:16-30 | Start's sync leaves player and session both at the larger of the two counts, so neither loses coins |
| CoinUIController.SyncIdempotent | Assets/Scripts/Items/Coins/CoinUIController.cs:16-30 | syncing again changes nothing, and the synced count is one of the two inputs, so no coins are made up |
| CoinUIController.CoinUIController.constructor | Assets/Scripts/Items/Coins/CoinUIController.cs:7-9 | no player yet and lastCoinCount at -1 |
| CoinUIController.CoinUIController.Start | Assets/Scripts/Items/Coins/CoinUIController.cs:11-32 | the controller keeps the player found; with a player and a session both counts become Synced(...); nothing else of the player or the session changes; with a coin label the label shows the player's count and lastCoinCount records it |
| CoinUIController.CoinUIController.Update | Assets/Scripts/Items/Coins/CoinUIController.cs:34-59 | with a player whose count changed, the label and the session follow the player's count; with an unchanged count nothing changes; without a player the controller takes the one found, and the session keeps its coins |
| CoinUIController.CoinUIController.UpdateCoinText | Assets/Scripts/Items/Coins/CoinUIController.cs:61-68 | with a label and a player the label shows the count and lastCoinCount records it; otherwise nothing changes |
| CoinUIController.CoinUIController.OnCoinCollected | Assets/Scripts/Items/Coins/CoinUIController.cs:72-87 | the amount is not added to the player; with a player and a session the session holds the player's coins and health; without a player nothing changes |
| GameSession.Loaded | Assets/Scripts/GameSession.cs:29-42 | Start takes coins and health from the save when one exists and otherwise keeps the session |
| GameSession.Saved | Assets/Scripts/GameSession.cs:46-52 | SalvarEstado records the player's coins and current health |
| GameSession.Applied | Assets/Scripts/GameSession.cs:57-66 | AplicarEstado always restores the coins, restores health only when it lies strictly between 0 and maxHealth, and changes nothing else |
| GameSession.SaveThenApply | Assets/Scripts/GameSession.cs:44-66 | saving a player and applying to the next one carries the coins, carries the health when it is in (0, maxHealth) and otherwise keeps the next player's, and applying a player's own save gives back the player |
| GameSession.StartAfterSaveGame | Assets/Scripts/GameSession.cs:32-40 | after a SaveSystem.SaveGame, the session loads the saved health and 0 coins |
| GameSession.GameSession.constructor | Assets/Scripts/GameSession.cs:8-27 | the session starts with the inspector's coins and health |
| GameSession.GameSession.Start | Assets/Scripts/GameSession.cs:29-42 | the session becomes Loaded(old session, stored save) |
| GameSession.GameSession.SalvarEstado | Assets/Scripts/GameSession.cs:44-53 | a null player changes nothing; otherwise the session becomes Saved(player) |
| GameSession.GameSession.AplicarEstado | Assets/Scripts/GameSession.cs:55-80 | a null player changes nothing and writes no label; otherwise the player becomes Applied(session, player) and the coin label gets the text of the session's coins |
| SaveSystem.Recorded | Assets/Scripts/SaveSystem/SaveSystem.cs:9-13 | SaveGame's record holds the scene, the position and the current health, and leaves moedasColetadas at its default 0 |
| SaveSystem.LoadGame | Assets/Scripts/SaveSystem/SaveSystem.cs:24-35 | loading gives null exactly when there is no save, and otherwise the stored record |
| SaveSystem.HasSaveIffLoads | Assets/Scripts/SaveSystem/SaveSystem.cs:37-40 | HasSave holds exactly when LoadGame finds a record; it holds after a save and not after a delete, even a delete of a fresh save |
| SaveSystem.Saved | Assets/Scripts/SaveSystem/SaveSystem.cs:17-19 | writing the save key creates the save and keeps every other key and value |
| SaveSystem.Deleted | Assets/Scripts/SaveSystem/SaveSystem.cs:42-45 | deleting removes the save and keeps every other key and value |
| SaveSystem.SaveThenLoad | Assets/Scripts/SaveSystem/SaveSystem.cs:7-35 | what SaveGame saves is what LoadGame loads, and the loaded coins are 0 |
| SaveSystem.LaterSaveWins | Assets/Scripts/SaveSystem/SaveSystem.cs:18 | a second save replaces the first, so the later one is what loads |
| SaveSystem.DeleteForgets | Assets/Scripts/SaveSystem/SaveSystem.cs:42-45 | after a delete nothing loads, whether or not a save existed |
| SaveSystem.PlayerPrefs.constructor | Assets/Scripts/SaveSystem/SaveSystem.cs:18 | the preference store starts with the given entries |
| SaveSystem.SaveGame | Assets/Scripts/SaveSystem/SaveSystem.cs:7-22 | the store becomes Saved(old store, record), and loading afterwards gives that record |
| SaveSystem.DeleteSave | Assets/Scripts/SaveSystem/SaveSystem.cs:42-45 | the store becomes Deleted(old store) |
| LoreIntroController.TypedIsPrefix | Assets/Scripts/Screens/Menu/LoreIntroController.cs:73-76 | after n typing steps the label is the paragraph's first n characters |
| LoreIntroController.LoreIntroController.constructor | Assets/Scripts/Screens/Menu/LoreIntroController.cs:27-36 | the pager starts at paragraph 0, not typing, with an empty label and the continue button hidden |
| LoreIntroController.LoreIntroController.StartLore | Assets/Scripts/Screens/Menu/LoreIntroController.cs:41-64 | a null or empty list changes nothing; otherwise the pager takes the list, goes back to paragraph 0 and types the first paragraph in full, ending with the continue button shown |
| LoreIntroController.LoreIntroController.ShowNextParagraph | Assets/Scripts/Screens/Menu/LoreIntroController.cs:66-84 | the typing loop ends with the whole current paragraph shown, typing over and the continue button shown |
| LoreIntroController.LoreIntroController.OnContinueButton | Assets/Scripts/Screens/Menu/LoreIntroController.cs:89-104 | while typing the press is ignored; otherwise the index moves on by one, and either the next paragraph is typed in full or, past the last one, the fade-out starts with the button hidden |
| HudVidaUIController.Clamp | Assets/Scripts/HUD/VidaUIController.cs:19-28 | a value clamped into [lo, hi], kept when already inside |
| HudVidaUIController.Fragments | Assets/Scripts/HUD/VidaUIController.cs:19-29 | fragment i shows the full sprite exactly when i < currentHealth and the empty sprite otherwise |
| HudVidaUIController.FullPrefix | Assets/Scripts/HUD/VidaUIController.cs:19-29 | the full fragments form a prefix of length currentHealth clamped to [0, n], the rest are empty, no health shows all empty and full health shows all full |
| HudVidaUIController.VidaUIController.constructor | Assets/Scripts/HUD/VidaUIController.cs:6-9 | the fragment images, the two sprites and the player reference are as given |
| HudVidaUIController.VidaUIController.UpdateVida | Assets/Scripts/HUD/VidaUIController.cs:11-30 | a null player leaves every fragment; otherwise the fragments become Fragments(n, currentHealth, full, empty) |
| VidaUIController.VidaUIController.constructor | Assets/Scripts/VidaUIController.cs:6-9 | the fragment images, the two sprites and the player reference are as given |
| VidaUIController.VidaUIController.UpdateVida | Assets/Scripts/VidaUIController.cs:11-24 | every fragment is written: fragment i is full exactly when i < currentHealth |
| Enemies.FacingSign | Assets/Scripts/Enemies/Base/EnemyBase.cs:112 | the walking direction is 1 when facing right and -1 otherwise |
| Enemies.MathfSign | Assets/Scripts/Enemies/Base/EnemyBase.cs:164 | Unity's Mathf.Sign: 1 for zero and positive offsets, -1 for negative ones |
| Enemies.Flipped | Assets/Scripts/Enemies/Base/EnemyBase.cs:176-182 | Flip turns the enemy round and leaves its velocity alone |
| Enemies.Sensed | Assets/Scripts/Enemies/Base/EnemyBase.cs:90-103 | the wall and edge flags take the frame's checks, and the player is detected exactly when present and within the radius |
| Enemies.Patrolled | Assets/Scripts/Enemies/Base/EnemyBase.cs:105-114 | the enemy turns exactly when there is no floor ahead or a wall ahead, then walks the way it faces |
| Enemies.FacedPlayer | Assets/Scripts/EnemyBase.cs:104-108 | a player on the right leaves the enemy facing right, one on the left leaves it facing left, and the velocity is kept |
| Enemies.Shoot | Assets/Scripts/SpiderPatrol.cs:30-42 | nothing is fired without a prefab or a spawn point; otherwise a projectile appears, moving the way the spider faces when it has a Rigidbody2D |
| Enemies.PatrolTurnsAway | Assets/Scripts/Enemies/Base/EnemyBase.cs:105-114 | after a blocked patrol step the velocity points away from the old facing, an unblocked step keeps the direction, and two blocked steps face the original way again |
| EnemyBase.Started | Assets/Scripts/Enemies/Base/EnemyBase.cs:60-61 | Start sets both currentHealth and startingHealth to maxHealth, alive, not hurt, no coins dropped |
| EnemyBase.Drops | Assets/Scripts/Enemies/Base/EnemyBase.cs:128-141 | one death spawns coinsToDrop coins when a coin prefab is set and the count is positive, and none otherwise |
| EnemyBase.Died | Assets/Scripts/Enemies/Base/EnemyBase.cs:122-145 | Die on a dead enemy changes nothing; otherwise it marks the enemy dead and drops its coins once |
| EnemyBase.Damaged | Assets/Scripts/Enemies/Base/EnemyBase.cs:149-172 | a hit on a dead enemy changes nothing; otherwise health drops by exactly 1, the hurt state is entered only from health above 1 (never on a lethal hit), the enemy stops, and it dies with its coins and a horizontal-only push exactly when health reaches 0 |
| EnemyBase.Reset | Assets/Scripts/Enemies/Base/EnemyBase.cs:214-216 | ResetEnemy restores the starting health and clears the dead and hurt flags, keeping everything else |
| EnemyBase.Updated | Assets/Scripts/Enemies/Base/EnemyBase.cs:66-120 | the ground check is always read; a dead enemy does nothing more; a hurt enemy waits until grounded with no vertical speed; a grounded, recovered enemy senses and patrols when CanMove holds and otherwise stands still; health never changes |
| EnemyBase.SurvivesFewerHits | Assets/Scripts/Enemies/Base/EnemyBase.cs:151-171 | fewer hits than the health count leave the enemy alive, one point lower per hit, with no coins dropped |
| EnemyBase.DeadStaysPut | Assets/Scripts/Enemies/Base/EnemyBase.cs:151 | any number of hits on a dead enemy change nothing |
| EnemyBase.KilledOnce | Assets/Scripts/Enemies/Base/EnemyBase.cs:124-171 | as many hits as the health count kill the enemy, and however many more follow, its coins drop exactly once |
| EnemyBase.HitsKeepStartingHealth | Assets/Scripts/Enemies/Base/EnemyBase.cs:149-172 | hits never change startingHealth |
| EnemyBase.ResetAfterHits | Assets/Scripts/Enemies/Base/EnemyBase.cs:214-216 | after any number of hits ResetEnemy brings back maxHealth and a live enemy |
| EnemyBase.DieIdempotent | Assets/Scripts/Enemies/Base/EnemyBase.cs:124 | Die twice is Die once |
| EnemyBase.EnemyBase.constructor | Assets/Scripts/Enemies/Base/EnemyBase.cs:47-64 | the enemy is in the Started state |
| EnemyBase.EnemyBase.Update | Assets/Scripts/Enemies/Base/EnemyBase.cs:66-120 | the new state is Updated(old state, CanMove, frame) |
| EnemyBase.EnemyBase.Die | Assets/Scripts/Enemies/Base/EnemyBase.cs:122-145 | the coin loop leaves the health fields as Died(old fields) |
| EnemyBase.EnemyBase.TakeDamage | Assets/Scripts/Enemies/Base/EnemyBase.cs:149-172 | the new state and the push are Damaged(old state, offset to the player) |
| EnemyBase.EnemyBase.Flip | Assets/Scripts/Enemies/Base/EnemyBase.cs:176-182 | the facing is reversed |
| EnemyBase.EnemyBase.ResetEnemy | Assets/Scripts/Enemies/Base/EnemyBase.cs:208-232 | the new state is Reset(old state) |
| LegacyEnemyBase.Started | Assets/Scripts/EnemyBase.cs:31-42 | health starts at 2, alive, not hurt, enabled, not attacking, facing right |
| LegacyEnemyBase.Decided | Assets/Scripts/EnemyBase.cs:78-123 | a detected player starts the attack only when neither prep nor attack is set (and then stops the enemy) and makes the enemy face the player; without detection the attack flags are cleared and the enemy patrols |
| LegacyEnemyBase.Updated | Assets/Scripts/EnemyBase.cs:58-124 | a disabled behaviour does nothing; a dead enemy that lands disables itself; landing ends the hurt state; a hurt or airborne enemy makes no decision; otherwise it decides; health and death never change |
| LegacyEnemyBase.Damaged | Assets/Scripts/EnemyBase.cs:126-146 | a hit on a dead enemy changes nothing; otherwise it is hurt, health drops by 1, it is dead exactly when health reaches 0, and the push is away from its facing with no vertical part on the lethal hit |
| LegacyEnemyBase.HitsCountDown | Assets/Scripts/EnemyBase.cs:128-145 | each of up to health hits costs one point and leaves the enemy hurt, and it is dead exactly when health is used up |
| LegacyEnemyBase.TwoHitsKill | Assets/Scripts/EnemyBase.cs:126-146 | from the starting health of 2, one hit leaves 1 and the enemy alive, and two hits kill |
| LegacyEnemyBase.EnemyBase.constructor | Assets/Scripts/EnemyBase.cs:31-56 | the enemy is in the Started state |
| LegacyEnemyBase.EnemyBase.Update | Assets/Scripts/EnemyBase.cs:58-124 | the new state is Updated(old state, frame) |
| LegacyEnemyBase.EnemyBase.Decide | Assets/Scripts/EnemyBase.cs:78-123 | the new state is Decided(old state, frame) |
| LegacyEnemyBase.EnemyBase.TakeDamage | Assets/Scripts/EnemyBase.cs:126-146 | the new state and the push are Damaged(old state) |
| LegacyEnemyBase.EnemyBase.Flip | Assets/Scripts/EnemyBase.cs:148-154 | the facing is reversed |
| SpiderPatrol.ProjectileStep | Assets/Scripts/SpiderPatrol.cs:16-27 | the projectile rule runs only while attacking, unhurt and grounded; then a run-out timer fires one shot and restarts at projectileCooldown, and otherwise the timer counts down by the frame time |
| SpiderPatrol.Updated | Assets/Scripts/SpiderPatrol.cs:12-28 | the base Update always runs first, and the projectile rule sees the state it leaves |
| SpiderPatrol.NoShotsBackToBack | Assets/Scripts/SpiderPatrol.cs:18-21 | with a positive cooldown, the frame right after a shot never shoots |
| SpiderPatrol.ShotNeedsCanShoot | Assets/Scripts/SpiderPatrol.cs:16-32 | a shot needs an enabled spider that is grounded this frame and, after the base update, attacking and unhurt, with the timer run out and the prefab and spawn point present; while it cannot shoot its timer stands still |
| SpiderPatrol.SpiderPatrol.constructor | Assets/Scripts/SpiderPatrol.cs:10 | the base enemy starts as Started and the timer at 0 |
| SpiderPatrol.SpiderPatrol.Update | Assets/Scripts/SpiderPatrol.cs:12-28 | the new state and the shot are Updated(old state, frame) |
| SpiderPatrol.SpiderPatrol.ShootProjectile | Assets/Scripts/SpiderPatrol.cs:30-42 | the shot is Shoot(prefab, spawn point, body, facing) |
| SpiderController.Started | Assets/Scripts/Enemies/Spider/SpiderController.cs:38-50 | health starts at 2, alive, enabled, not attacking, facing right |
| SpiderController.Grounding | Assets/Scripts/Enemies/Spider/SpiderController.cs:70-88 | without a ground check nothing changes; otherwise the grounded flag is read, and landing ends the hurt state and disables a dead spider |
| SpiderController.Decided | Assets/Scripts/Enemies/Spider/SpiderController.cs:90-154 | on detection the attack starts only if neither flag is set and the spider faces the player; losing the player clears both flags and, when grounded, patrols with the edge/wall flip |
| SpiderController.Projectile | Assets/Scripts/Enemies/Spider/SpiderController.cs:156-168 | while attacking, unhurt and grounded a run-out timer fires and restarts at projectileCooldown, and otherwise it counts down; in any other state nothing happens |
| SpiderController.Updated | Assets/Scripts/Enemies/Spider/SpiderController.cs:67-169 | a disabled spider does nothing, and an update never changes health or death |
| SpiderController.HurtAirborneWaits | Assets/Scripts/Enemies/Spider/SpiderController.cs:82-90 | a hurt spider in the air neither moves, nor changes its attack, nor shoots |
| SpiderController.ShotNeedsCanShoot | Assets/Scripts/Enemies/Spider/SpiderController.cs:157-168 | a shot needs an enabled spider that ends the frame's checks attacking, unhurt and grounded, with the timer run out and the prefab and spawn point present |
| SpiderController.Damaged | Assets/Scripts/Enemies/Spider/SpiderController.cs:171-200 | a hit on a dead spider changes nothing; otherwise it is hurt, health drops by 1, it dies at 0, and the push is opposite to its facing, horizontal-only on the lethal hit |
| SpiderController.SecondHitKills | Assets/Scripts/Enemies/Spider/SpiderController.cs:171-200 | the first hit leaves the spider alive, the second kills it at health 0, and later hits change nothing |
| SpiderController.PrepCompleted | Assets/Scripts/Enemies/Spider/SpiderController.cs:202-206 | after the prep animation event the spider is attacking and no longer preparing |
| SpiderController.SpiderController.constructor | Assets/Scripts/Enemies/Spider/SpiderController.cs:38-65 | the spider is in the Started state |
| SpiderController.SpiderController.Update | Assets/Scripts/Enemies/Spider/SpiderController.cs:67-169 | the new state and the shot are Updated(old state, frame) |
| SpiderController.SpiderController.Decide | Assets/Scripts/Enemies/Spider/SpiderController.cs:93-152 | the new state is Decided(old state, frame) |
| SpiderController.SpiderController.TakeDamage | Assets/Scripts/Enemies/Spider/SpiderController.cs:171-200 | the new state and the push are Damaged(old state) |
| SpiderController.SpiderController.OnPrepAttackComplete | Assets/Scripts/Enemies/Spider/SpiderController.cs:202-206 | the attack flags become PrepCompleted(old flags) |
| SpiderController.SpiderController.Flip | Assets/Scripts/Enemies/Spider/SpiderController.cs:208-214 | the facing is reversed |
| SpiderController.SpiderController.ShootProjectile | Assets/Scripts/Enemies/Spider/SpiderController.cs:247-259 | the shot is Shoot(prefab, spawn point, body, facing) |
| CagedShocker.Started | Assets/Scripts/CagedShocker.cs:41-50 | the base starts as EnemyBase.Started, with the cooldown at 0, not attacking and the hitbox off |
| CagedShocker.StartedValid | Assets/Scripts/CagedShocker.cs:35-50 | the starting state meets the attack invariant: isAttacking exactly while the attack sequence runs, the hitbox on only from the strike to the end |
| CagedShocker.AttackBegun | Assets/Scripts/CagedShocker.cs:97-104 | starting the sequence sets isAttacking, restarts the cooldown and waits for the prep time |
| CagedShocker.Finished | Assets/Scripts/CagedShocker.cs:137-140 | the end of the sequence turns the hitbox off and clears isAttacking, keeping the cooldown |
| CagedShocker.SlideStep | Assets/Scripts/CagedShocker.cs:118-140 | while the slide time lasts the shocker moves the way it faces; afterwards it stops, then waits out the rest of the hitbox window or ends the sequence at once; the invariant is kept |
| CagedShocker.Resumed | Assets/Scripts/CagedShocker.cs:107-128 | the charge holds while the cooldown is positive, and the fast attack with the hitbox begins only once the cooldown has run out; health and cooldown are untouched and the invariant is kept |
| CagedShocker.PrepElapsed | Assets/Scripts/CagedShocker.cs:104-108 | after the prep wait the shocker holds the charge while the cooldown is positive |
| CagedShocker.TailElapsed | Assets/Scripts/CagedShocker.cs:133-140 | the end of the hitbox window ends the sequence with the hitbox off |
| CagedShocker.Updated | Assets/Scripts/CagedShocker.cs:55-92 | the base update runs and the cooldown ticks whatever the state; dead, hurt or attacking blocks any decision; otherwise the attack range wins (stop and attack), then detection (walk toward the player, facing it), else idle with zero velocity; the invariant is kept |
| CagedShocker.Damaged | Assets/Scripts/CagedShocker.cs:146-186 | a hit on a dead shocker changes nothing; otherwise it cancels the attack and turns the hitbox off, health drops by 1; a lethal hit runs Die and leaves it not hurt, with a horizontal push; a non-lethal one makes it hurt and restarts the cooldown |
| CagedShocker.Touched | Assets/Scripts/CagedShocker.cs:205-214 | touching the player starts the attack sequence only when alive, unhurt and not already attacking |
| CagedShocker.DamagesPlayer | Assets/Scripts/CagedShocker.cs:220-229 | the player is sent TakeDamage exactly when the hitbox exists and is on, the shocker is attacking, and the collider is the player |
| CagedShocker.OnlyStrikesHurt | Assets/Scripts/CagedShocker.cs:220-229 | under the invariant the player is hurt only during the strike's slide or its hitbox window |
| CagedShocker.CagedShocker.constructor | Assets/Scripts/CagedShocker.cs:41-50 | the shocker starts in the Started state with a base that never patrols |
| CagedShocker.CagedShocker.Update | Assets/Scripts/CagedShocker.cs:55-92 | the new state is Updated(old state, frame) |
| CagedShocker.CagedShocker.Decide | Assets/Scripts/CagedShocker.cs:66-91 | the range, detection and idle choice of a free shocker |
| CagedShocker.CagedShocker.AttackSequence | Assets/Scripts/CagedShocker.cs:97-104 | the combat state becomes AttackBegun(old) |
| CagedShocker.CagedShocker.Resume | Assets/Scripts/CagedShocker.cs:107-128 | the new state is Resumed(old state) |
| CagedShocker.CagedShocker.Slide | Assets/Scripts/CagedShocker.cs:123-140 | the new state is SlideStep(old state) |
| CagedShocker.CagedShocker.PrepDurationElapsed | Assets/Scripts/CagedShocker.cs:104-108 | the new state is PrepElapsed(old state) |
| CagedShocker.CagedShocker.HitboxWindowElapsed | Assets/Scripts/CagedShocker.cs:133-140 | the new state is TailElapsed(old state) |
| CagedShocker.CagedShocker.TakeDamage | Assets/Scripts/CagedShocker.cs:146-186 | the new state and the push are Damaged(old state) |
| CagedShocker.CagedShocker.OnDeath | Assets/Scripts/CagedShocker.cs:192-199 | the hurt flag is cleared and nothing else of the health record changes |
| CagedShocker.CagedShocker.OnCollisionEnter2D | Assets/Scripts/CagedShocker.cs:205-214 | the new state is Touched(old state) |
| CagedShocker.CagedShocker.OnTriggerEnter2D | Assets/Scripts/CagedShocker.cs:220-229 | the answer is DamagesPlayer(combat state) |
| PlayerControllerV24.Awoken | Assets/Scripts/Player/PlayerController2d.cs:126-139 | after Awake the player has full health (currentHealth = maxHealth), every extra jump, is alive, unhurt, enabled and faces right |
| PlayerControllerV24.TimersStep | Assets/Scripts/Player/PlayerController2d.cs:172-177 | the coyote and jump-buffer timers drop by the frame time, the wall-jump timer only while wall-jumping, and nothing else changes |
| PlayerControllerV24.DashBegun | Assets/Scripts/Player/PlayerController2d.cs:325-332 | a dash coroutine that is not already running marks the player dashing, marks the coroutine active and stamps lastDashTime, leaving the air-dash flag alone |
| PlayerControllerV24.DashEnded | Assets/Scripts/Player/PlayerController2d.cs:342-346 | after dashDuration the dash and its coroutine are over and nothing else changes |
| PlayerControllerV24.InputStep | Assets/Scripts/Player/PlayerController2d.cs:179-205 | the axis is copied and a jump press refills the buffer; a dash starts only through the open gate (cooldown over, no dash running, not wall-sliding, not attacking) and then on the ground freely but in the air only once, disarming the air dash; no dash means no change to the dash state |
| PlayerControllerV24.CollisionStep | Assets/Scripts/Player/PlayerController2d.cs:209-231 | grounded takes the frame's answer; on the ground the coyote timer and jumps are refilled; landing (and only landing) re-arms the air dash; wall-sliding holds exactly when touching a wall or barrier in the air, falling, and not wall-jumping |
| PlayerControllerV24.JumpChoice | Assets/Scripts/Player/PlayerController2d.cs:273-278 | a buffered press performs a ground (coyote) jump exactly when the coyote timer runs, else a wall jump when sliding on a wall, else a double jump when jumps are left and no barrier is touched, else nothing |
| PlayerControllerV24.GroundJumped | Assets/Scripts/Player/PlayerController2d.cs:284-293 | a ground jump consumes the buffer and the coyote time but no extra jump |
| PlayerControllerV24.WallJumped | Assets/Scripts/Player/PlayerController2d.cs:295-310 | a wall jump consumes the buffer, starts the wall-jump timer, keeps the extra jumps and always turns the player away from the wall |
| PlayerControllerV24.DoubleJumped | Assets/Scripts/Player/PlayerController2d.cs:312-321 | a double jump consumes the buffer and exactly one extra jump |
| PlayerControllerV24.JumpStep | Assets/Scripts/Player/PlayerController2d.cs:269-282 | attacking, dashing or being hurt blocks every jump; otherwise only a double jump changes jumpsLeft, by one; health, dash and combat are untouched |
| PlayerControllerV24.FlipStep | Assets/Scripts/Player/PlayerController2d.cs:564-579 | attacking, wall-jumping or dashing keeps the facing; otherwise the player faces the way the axis points and keeps its facing at 0; nothing else changes |
| PlayerControllerV24.SlashExecuted | Assets/Scripts/Player/PlayerController2d.cs:419-433 | a slash becomes the active attack, ends any slice in progress and stamps lastSlashTime |
| PlayerControllerV24.SliceTried | Assets/Scripts/Player/PlayerController2d.cs:374-394 | during the slice cooldown or an active slash nothing happens; otherwise the slice starts and is stamped, and on the ground it freezes the player and zeroes the input |
| PlayerControllerV24.SlashTried | Assets/Scripts/Player/PlayerController2d.cs:413-417 | during the slash cooldown or a frozen slice nothing happens; otherwise the slash is executed |
| PlayerControllerV24.AttackStep | Assets/Scripts/Player/PlayerController2d.cs:361-372 | no press, wall-sliding or being hurt ignores the attack; a press during a frozen slice only queues a slash; one during a slash or combo dash only queues a slice; health, jumps and dash never change |
| PlayerControllerV24.FrameStep | Assets/Scripts/Player/PlayerController2d.cs:141-155 | an Update of a dead player changes nothing |
| PlayerControllerV24.SliceFreezeEnded | Assets/Scripts/Player/PlayerController2d.cs:389-404 | when the freeze ends the slice is over and its queued slash is cleared, nothing else changes |
| PlayerControllerV24.AirSliceEnded | Assets/Scripts/Player/PlayerController2d.cs:406-411 | the air slice ends and nothing else changes |
| PlayerControllerV24.SlashEnded | Assets/Scripts/Player/PlayerController2d.cs:435-446 | when the slash ends it is no longer active and its queued slice is cleared, nothing else changes |
| PlayerControllerV24.ComboDashBegun | Assets/Scripts/Player/PlayerController2d.cs:448-454 | the combo dash begins and nothing else changes |
| PlayerControllerV24.ComboDashEnded | Assets/Scripts/Player/PlayerController2d.cs:456-465 | the combo dash ends with a slash stamped at that moment, even for a player who died meanwhile; health is untouched |
| PlayerControllerV24.Died | Assets/Scripts/Player/PlayerController2d.cs:539-546 | the player is dead, every queued and running attack and every dash is cancelled, and health, pose and jumps are kept |
| PlayerControllerV24.Damaged | Assets/Scripts/Player/PlayerController2d.cs:508-531 | a hit while dead or still hurt is ignored; otherwise health drops by dmg but not below 0; a hit that empties it kills the player, any other hurts it and clears the queued attacks; maxHealth and coins never change |
| PlayerControllerV24.AirborneFrame | Assets/Scripts/Player/PlayerController2d.cs:190-221 | an airborne Update keeps the player airborne and never re-arms the air dash, and a dash it starts is the air dash, which it disarms |
| PlayerControllerV24.OneAirDashPerAirbornePeriod | Assets/Scripts/Player/PlayerController2d.cs:190-221 | any run of airborne Updates after an airborne frame starts at most one dash, and none once the air dash is used |
| PlayerControllerV24.LeavingGroundDashKeepsAirDash | Assets/Scripts/Player/PlayerController2d.cs:193-228 | the Update that leaves the ground still sees the previous frame's grounded flag, so a dash it starts takes the ground branch and leaves the air dash as it was |
| PlayerControllerV24.DashNeedsGate | Assets/Scripts/Player/PlayerController2d.cs:189-192 | an Update dashes only on a press, with dashCooldown elapsed since lastDashTime, no dash coroutine running, no wall slide and no attack; a dash stamps lastDashTime with the frame's time and an Update without one keeps it, so dashes are at least dashCooldown apart |
| PlayerControllerV24.TakeOffAllowsTwoDashes | Assets/Scripts/Player/PlayerController2d.cs:190-228 | as written, a dash on the take-off Update followed, once it has finished, by an air dash gives two dashes in one airborne period |
| PlayerControllerV24.IntendedInputStep | Assets/Scripts/Player/PlayerController2d.cs:190-206 | the corrected ReadInput: a dash that passes the gate stamps lastDashTime and starts the coroutine, and one started on an Update that is not grounded now uses the air dash; without a dash the dash state is unchanged |
| PlayerControllerV24.IntendedFrameStep | Assets/Scripts/Player/PlayerController2d.cs:141-155 | the corrected Update: a dead player is unchanged, otherwise the player ends grounded exactly when this frame's ground check succeeds, and a dash it starts stamps lastDashTime |
| PlayerControllerV24.IntendedAgreesWhenGroundIsCurrent | Assets/Scripts/Player/PlayerController2d.cs:190-228 | the corrected gate, which reads the current frame's ground, gives the same Update as the code whenever the stale and the current ground agree |
| PlayerControllerV24.IntendedAirborneFrame | Assets/Scripts/Player/PlayerController2d.cs:190-228 | with the corrected gate, every airborne Update, the take-off one included, refuses a dash once the air dash is used, keeps it used, and a dash it starts uses it |
| PlayerControllerV24.IntendedOneDashAfterTakeOff | Assets/Scripts/Player/PlayerController2d.cs:190-228 | with the corrected gate, a take-off dash is the airborne period's only dash: after it finishes, the next airborne Update cannot dash |
| PlayerControllerV24.LandingRearms | Assets/Scripts/Player/PlayerController2d.cs:218-227 | with a positive coyote time, the landing Update re-arms the air dash, grounds the player and restores every extra jump |
| PlayerControllerV24.JumpsLeftBounded | Assets/Scripts/Player/PlayerController2d.cs:273-316 | one Update keeps jumpsLeft within 0 and extraJumps |
| PlayerControllerV24.JumpsLeftBoundedRun | Assets/Scripts/Player/PlayerController2d.cs:273-316 | any run of Updates keeps jumpsLeft within 0 and extraJumps |
| PlayerControllerV24.DeadPlayerFrozen | Assets/Scripts/Player/PlayerController2d.cs:143 | a dead player's Updates change nothing and start no dash |
| PlayerControllerV24.HealthStaysNonNegative | Assets/Scripts/Player/PlayerController2d.cs:512 | no sequence of hits takes health below zero |
| PlayerControllerV24.PlayerController2D.constructor | Assets/Scripts/Player/PlayerController2d.cs:126-139 | the component starts in the Awoken state |
| PlayerControllerV24.PlayerController2D.IsAttacking | Assets/Scripts/Player/PlayerController2d.cs:166-168 | attacking means a frozen slice, an active slash, a combo dash, or a slice or slash being performed |
| PlayerControllerV24.PlayerController2D.Update | Assets/Scripts/Player/PlayerController2d.cs:141-155 | the new state is FrameStep(old state, frame) |
| PlayerControllerV24.PlayerController2D.HandleTimers | Assets/Scripts/Player/PlayerController2d.cs:172-177 | the new state is TimersStep(old state, frame) |
| PlayerControllerV24.PlayerController2D.ReadInput | Assets/Scripts/Player/PlayerController2d.cs:179-205 | the new state is InputStep(old state, frame) |
| PlayerControllerV24.PlayerController2D.StartDash | Assets/Scripts/Player/PlayerController2d.cs:325-332 | a new dash begins as DashBegun; a second start while one runs changes nothing |
| PlayerControllerV24.PlayerController2D.DashFinished | Assets/Scripts/Player/PlayerController2d.cs:342-346 | the new state is DashEnded(old state) |
| PlayerControllerV24.PlayerController2D.CheckCollisions | Assets/Scripts/Player/PlayerController2d.cs:209-231 | the new state is CollisionStep(old state, frame) |
| PlayerControllerV24.PlayerController2D.HandleJump | Assets/Scripts/Player/PlayerController2d.cs:269-282 | the new state is JumpStep(old state, frame) |
| PlayerControllerV24.PlayerController2D.PerformGroundJump | Assets/Scripts/Player/PlayerController2d.cs:284-293 | the new state is GroundJumped(old state) |
| PlayerControllerV24.PlayerController2D.PerformWallJump | Assets/Scripts/Player/PlayerController2d.cs:295-310 | the new state is WallJumped(old state) |
| PlayerControllerV24.PlayerController2D.PerformDoubleJump | Assets/Scripts/Player/PlayerController2d.cs:312-321 | the new state is DoubleJumped(old state) |
| PlayerControllerV24.PlayerController2D.HandleFlip | Assets/Scripts/Player/PlayerController2d.cs:564-570 | the new state is FlipStep(old state) |
| PlayerControllerV24.PlayerController2D.Flip | Assets/Scripts/Player/PlayerController2d.cs:572-578 | the facing is reversed and the rest of the pose kept |
| PlayerControllerV24.PlayerController2D.HandleAttacks | Assets/Scripts/Player/PlayerController2d.cs:361-372 | the new state is AttackStep(old state, frame) |
| PlayerControllerV24.PlayerController2D.TryExecuteSlice | Assets/Scripts/Player/PlayerController2d.cs:374-394 | the new state is SliceTried(old state, now) |
| PlayerControllerV24.PlayerController2D.TryExecuteSlash | Assets/Scripts/Player/PlayerController2d.cs:413-417 | the new state is SlashTried(old state, now) |
| PlayerControllerV24.PlayerController2D.ExecuteSlash | Assets/Scripts/Player/PlayerController2d.cs:419-433 | the combat state becomes SlashExecuted(old, now) |
| PlayerControllerV24.PlayerController2D.SliceFreezeFinished | Assets/Scripts/Player/PlayerController2d.cs:396-403 | the freeze ends as SliceFreezeEnded, and the combo starts exactly when a slash was queued and the player is not hurt |
| PlayerControllerV24.PlayerController2D.AirSliceFinished | Assets/Scripts/Player/PlayerController2d.cs:408-410 | the new state is AirSliceEnded(old state) |
| PlayerControllerV24.PlayerController2D.SlashFinished | Assets/Scripts/Player/PlayerController2d.cs:437-445 | the slash ends as SlashEnded, and the follow-up slice starts exactly when one was queued and the player is not hurt |
| PlayerControllerV24.PlayerController2D.ComboDashBegin | Assets/Scripts/Player/PlayerController2d.cs:450-454 | the new state is ComboDashBegun(old state) |
| PlayerControllerV24.PlayerController2D.ComboDashFinished | Assets/Scripts/Player/PlayerController2d.cs:458-465 | the new state is ComboDashEnded(old state, now) |
| PlayerControllerV24.PlayerController2D.SliceAfterCooldown | Assets/Scripts/Player/PlayerController2d.cs:467-474 | after its wait the coroutine tries a slice: the new state is SliceTried(old state, now) |
| PlayerControllerV24.PlayerController2D.TakeDamage | Assets/Scripts/Player/PlayerController2d.cs:508-531 | the new state is Damaged(old state, dmg) |
| PlayerControllerV24.PlayerController2D.DamageRecovered | Assets/Scripts/Player/PlayerController2d.cs:533-537 | the hurt state ends and nothing else of the vitals changes |
| PlayerControllerV24.PlayerController2D.Die | Assets/Scripts/Player/PlayerController2d.cs:539-546 | the new state is Died(old state) |
| PlayerControllerV24.PlayerController2D.DeathFinished | Assets/Scripts/Player/PlayerController2d.cs:548-551 | after the wait the component is disabled and nothing else of the vitals changes |
| PlayerControllerV24.PlayerController2D.OnCollisionEnter2D | Assets/Scripts/Player/PlayerController2d.cs:556-562 | a collider tagged Enemy or EnemyAttack deals the default 10 damage; any other changes nothing |
| PlayerControllerV12.Awoken | Assets/Scripts/PlayerController2d.cs:69-89 | after Awake every extra jump is available, the dash is armed and not running, and the dash state is consistent |
| PlayerControllerV12.DashBegun | Assets/Scripts/PlayerController2d.cs:252-264 | a started dash disarms canDash; the player is dashing exactly when dashDuration is positive, since the polling loop tests the clock before its first yield |
| PlayerControllerV12.DashPolled | Assets/Scripts/PlayerController2d.cs:263-267 | a resume of the polling loop changes nothing outside a dash or before dashDuration has passed, and ends the dash and enters the cooldown once it has |
| PlayerControllerV12.CooldownElapsed | Assets/Scripts/PlayerController2d.cs:269-270 | the end of dashCooldown re-arms canDash when cooling and changes nothing otherwise |
| PlayerControllerV12.FirstFrameAfterDuration | Assets/Scripts/PlayerController2d.cs:263-264 | the loop yields on every frame before dashDuration has passed and stops at the first frame on which it has |
| PlayerControllerV12.TimersStep | Assets/Scripts/PlayerController2d.cs:113-119 | the coyote and jump-buffer timers drop by the frame time, the wall-jump timer only while wall-jumping; dash and jumps are untouched |
| PlayerControllerV12.InputStep | Assets/Scripts/PlayerController2d.cs:122-137 | the axis is copied, a jump press refills the buffer, and a dash starts exactly when the dash key is pressed while canDash holds |
| PlayerControllerV12.CollisionStep | Assets/Scripts/PlayerController2d.cs:140-156 | on the ground the coyote timer and jumps are refilled, in the air they are kept; wall-sliding holds exactly when on a wall, airborne, falling and not wall-jumping |
| PlayerControllerV12.JumpChoice | Assets/Scripts/PlayerController2d.cs:188-208 | a buffered press jumps exactly when the coyote timer runs, or the player wall-slides, or an extra jump is left, in that order of preference |
| PlayerControllerV12.GroundJumped | Assets/Scripts/PlayerController2d.cs:215-223 | a ground jump consumes the buffer and the coyote time but no extra jump |
| PlayerControllerV12.WallJumped | Assets/Scripts/PlayerController2d.cs:225-239 | a wall jump consumes the buffer, starts the wall-jump timer, keeps the extra jumps and always turns the player away from the wall |
| PlayerControllerV12.DoubleJumped | Assets/Scripts/PlayerController2d.cs:241-249 | a double jump consumes the buffer and exactly one extra jump |
| PlayerControllerV12.JumpStep | Assets/Scripts/PlayerController2d.cs:188-213 | only a double jump changes jumpsLeft, by one, and a wall jump whose timer ran out is over |
| PlayerControllerV12.FlipStep | Assets/Scripts/PlayerController2d.cs:274-280 | dashing or wall-jumping keeps the facing; otherwise the player faces the way the axis points and keeps its facing at 0 |
| PlayerControllerV12.FrameStep | Assets/Scripts/PlayerController2d.cs:93-100 | an Update starts the dash exactly when it is pressed while armed and changes the dash state no other way; the axis is stored; on the ground jumpsLeft ends at extraJumps or one less, and in the air it drops by at most one |
| PlayerControllerV12.EventKeepsDashConsistent | Assets/Scripts/PlayerController2d.cs:252-270 | an Update, a resume of the dash loop or the end of the cooldown keeps canDash false exactly while the dash coroutine runs |
| PlayerControllerV12.CanDashStaysFalseUntilCooldown | Assets/Scripts/PlayerController2d.cs:252-270 | once a dash has started, no sequence of Updates and loop resumes re-arms canDash before the cooldown ends |
| PlayerControllerV12.DashStartDisarms | Assets/Scripts/PlayerController2d.cs:135-136 | an Update that starts a dash leaves canDash false |
| PlayerControllerV12.JumpsLeftBounded | Assets/Scripts/PlayerController2d.cs:188-208 | an Update keeps jumpsLeft within 0 and extraJumps |
| PlayerControllerV12.PlayerController2D.constructor | Assets/Scripts/PlayerController2d.cs:60-89 | the component starts in the Awoken state |
| PlayerControllerV12.PlayerController2D.Update | Assets/Scripts/PlayerController2d.cs:93-100 | the new state is FrameStep(old state, frame) |
| PlayerControllerV12.PlayerController2D.HandleTimers | Assets/Scripts/PlayerController2d.cs:113-119 | the new state is TimersStep(old state, frame) |
| PlayerControllerV12.PlayerController2D.ReadInput | Assets/Scripts/PlayerController2d.cs:122-137 | the new state is InputStep(old state, frame) |
| PlayerControllerV12.PlayerController2D.StartDash | Assets/Scripts/PlayerController2d.cs:252-264 | the dash state becomes DashBegun(old, now) |
| PlayerControllerV12.PlayerController2D.ResumeDash | Assets/Scripts/PlayerController2d.cs:263-267 | the loop yields on each frame before dashDuration has passed and ends the dash on the first frame after it; outside a dash nothing happens |
| PlayerControllerV12.PlayerController2D.DashCooldownFinished | Assets/Scripts/PlayerController2d.cs:269-270 | the dash state becomes CooldownElapsed(old) |
| PlayerControllerV12.PlayerController2D.CheckCollisions | Assets/Scripts/PlayerController2d.cs:140-156 | the new state is CollisionStep(old state, frame) |
| PlayerControllerV12.PlayerController2D.HandleJump | Assets/Scripts/PlayerController2d.cs:188-213 | the new state is JumpStep(old state) |
| PlayerControllerV12.PlayerController2D.PerformGroundJump | Assets/Scripts/PlayerController2d.cs:215-223 | the new state is GroundJumped(old state) |
| PlayerControllerV12.PlayerController2D.PerformWallJump | Assets/Scripts/PlayerController2d.cs:225-239 | the new state is WallJumped(old state) |
| PlayerControllerV12.PlayerController2D.PerformDoubleJump | Assets/Scripts/PlayerController2d.cs:241-249 | the new state is DoubleJumped(old state) |
| PlayerControllerV12.PlayerController2D.HandleFlip | Assets/Scripts/PlayerController2d.cs:274-280 | the new state is FlipStep(old state) |
| PlayerControllerV12.PlayerController2D.Flip | Assets/Scripts/PlayerController2d.cs:282-286 | the facing is reversed and the rest of the pose kept |
| PlayerController.Started | Assets/Scripts/PlayerController.cs:48-65 | the player starts facing right with the dash armed, not dashing and not attacking, its facing matching the transform's scale |
| PlayerController.Turned | Assets/Scripts/PlayerController.cs:283-288 | a turn reverses both the facing flag and the x scale, keeping the rest of the pose |
| PlayerController.SensePart | Assets/Scripts/PlayerController.cs:71-137 | grounded and the axis take the frame's answers; ground refills the coyote timer and a jump press the buffer, otherwise both count down; ground or wall contact re-arms the dash; the player wall-slides exactly when walled in the air and not wall-jumping, and then turns toward the wall, saves the direction opposite the scale, restarts the wall-jump timer and cancels a pending StopWallJumping; the facing stays in step with the scale |
| PlayerController.JumpChoice | Assets/Scripts/PlayerController.cs:140-159 | a buffered press wall-jumps exactly when sliding, or walled in the air with the wall-jump timer still running; only otherwise does it use coyote time |
| PlayerController.JumpPart | Assets/Scripts/PlayerController.cs:140-167 | a wall jump starts wall-jumping, empties the timer and buffer, schedules one StopWallJumping, and turns when the scale differs from the saved direction; a coyote jump empties both counters and nothing else; no jump changes nothing |
| PlayerController.DashStarted | Assets/Scripts/PlayerController.cs:248-252 | a dash marks the player dashing and attacking and uses up the dash |
| PlayerController.AttackPart | Assets/Scripts/PlayerController.cs:183-205 | an attack fires exactly on a press with no attack in progress and an animator state that allows it, Slash on the ground and Sweep in the air, and marks the player attacking |
| PlayerController.FlipPart | Assets/Scripts/PlayerController.cs:209-231 | outside a wall jump or slide the player faces the way a non-zero axis points; F turns it once more; wasGrounded remembers this frame's grounded flag |
| PlayerController.FrameStep | Assets/Scripts/PlayerController.cs:67-246 | a dashing player's Update does nothing; a frame that starts a dash ends there with no attack and no input flip; an attack fires only on a press with none in progress, Slash only on the ground and Sweep only in the air |
| PlayerController.ContactRearmsDash | Assets/Scripts/PlayerController.cs:88-91 | an Update with ground or wall contact leaves the dash armed exactly when it does not start one |
| PlayerController.DashNeedsGate | Assets/Scripts/PlayerController.cs:176-180 | a player who is not dashing starts a dash in an Update exactly when the button is pressed, the dash is armed or re-armed by ground or wall contact in that frame, and the player is not wall sliding |
| PlayerController.FrameKeepsFacing | Assets/Scripts/PlayerController.cs:209-221 | every Update keeps the facing flag and the transform's scale in agreement |
| PlayerController.SlideWallJumpTurns | Assets/Scripts/PlayerController.cs:127-153 | a jump from a slide that began in the same frame always turns the player away from the wall |
| PlayerController.PlayerController.constructor | Assets/Scripts/PlayerController.cs:9-65 | the component starts in the Started state |
| PlayerController.PlayerController.Update | Assets/Scripts/PlayerController.cs:67-246 | the new state and the attack trigger are FrameStep(old state, frame) |
| PlayerController.PlayerController.Sense | Assets/Scripts/PlayerController.cs:71-137 | the new state is SensePart(old state, frame) |
| PlayerController.PlayerController.HandleJumpInput | Assets/Scripts/PlayerController.cs:140-167 | the new state is JumpPart(old state, frame) |
| PlayerController.PlayerController.TurnAround | Assets/Scripts/PlayerController.cs:149-153 | the pose becomes Turned(old pose) |
| PlayerController.PlayerController.DoDash | Assets/Scripts/PlayerController.cs:248-252 | the actions become DashStarted(old) |
| PlayerController.PlayerController.DoDashFinished | Assets/Scripts/PlayerController.cs:261-265 | after dashDuration the dash and its attack lock end |
| PlayerController.PlayerController.ResetAttackFinished | Assets/Scripts/PlayerController.cs:290-293 | after the delay the attack lock ends |
| PlayerController.PlayerController.StopWallJumpingDue | Assets/Scripts/PlayerController.cs:278-281 | a scheduled StopWallJumping that was not cancelled ends the wall jump; with none pending nothing happens |

## Left out

- Physics: forces, velocities, gravity changes, `FixedUpdate` movement, `ApplyHorizontalMovement`, `ApplyWallSlide` and the jump cut are not modelled. `OverlapBox`, `OverlapBoxAll`, `Vector2.Distance` and velocity tests are boolean `Frame` inputs.
- Floating-point time and tuning: `Time.deltaTime`, `Time.time` and every duration are whole ticks, and "timer > 0" is integer comparison. Push forces are kept as `real` values only where their sign or presence is part of a rule.
- Coroutines, `WaitForSeconds` and `Invoke`: each resumption is an event method that the caller invokes. The model does not schedule these events or check the wait lengths.
- Animator triggers and states, `Debug.Log`, gizmos, `SendMessage`, `Instantiate` and `Destroy` are not modelled. The one animator answer a rule reads (the can-attack test of `PlayerController.cs`) is a `Frame` input.
- PlayerControllerV24.Damaged: the knock-back force of a non-lethal hit is not returned, because it is pure physics.
- PlayerControllerV24.PlayerController2D.ExecuteSlash: `PerformAttack`'s overlap query and the `TakeDamage` messages it sends to enemies are not modelled. Enemy damage is modelled on the enemy side.
- PlayerControllerV24.PlayerController2D.DeathFinished: the call to `GameManager.PlayerMorreu` is not modelled. `GameManager` is scene glue outside this model.
- PlayerControllerV24.PlayerController2D.SliceAfterCooldown: is modelled without the preceding wait. The same holds for `ComboDashBegin`.
- PlayerControllerV24.LandingRearms: assumes a positive `coyoteTime`. With a coyote time of 0 or less the landing frame can spend a double jump, so `jumpsLeft` is then one less than `extraJumps`.
- PlayerControllerV12.PlayerController2D.ResumeDash: takes the times of the frames on which the polling loop resumes, so the "one yield per frame" schedule comes from the caller.
- PlayerController.PlayerController: the transform's x scale is a sign (the prefab's scale is taken to be 1), and the landing trigger and debug side text are not modelled.
- The enemies' `player` reference is modelled only through `Frame` answers (present, within a radius, on which side). `CagedShocker.Update` and `EnemyBase.TakeDamage` read the player's position without a null check, and the model does not represent that failure.
- CagedShocker.CagedShocker.Resume: the random choice of the fast attack animation is not modelled, since it does not change the attack's state.
- CagedShocker.CagedShocker.Slide: one call is one frame of the slide loop. The caller supplies the elapsed time; no clock is modelled.
- CagedShocker.CagedShocker.constructor: a `CanMove` that is false is passed in as a constant of the composed base, instead of being a virtual override.
- EnemyBase.EnemyBase.Die: the spawned coins are a count. Their positions, the forces on them and the collider and layer changes are not modelled.
- The healthBar calls (`SetMaxHealth`, `SetHealth`), the audio scripts and the sound calls are output only, and are not modelled.
- CardData: the Damage and SpeedBoost branches change private float fields of the player by reflection. The model keeps them as cases that leave health unchanged.
- The singleton handling of `InventoryManager` and `GameSession`, that is `Awake` with `Destroy`/`DontDestroyOnLoad`, is not modelled. Each is a single object built by its constructor.
- InventoryManager.InventoryManager.ToggleUI: requires the inventory UI to be present, because the source dereferences `inventoryRoot` and `uiController` without a null check. The `RefreshSlots()` call it makes on opening does not exist in `InventarioController.cs`, so it is returned as the `refresh` flag.
- InventoryManager.InventoryManager.constructor: requires a non-negative `consumeSlotCount`, because the array allocation fails otherwise.
- InventarioController.InventarioController: the slots that `FindObjectsOfType` would return are constructor arguments. A selection is an index into them, not an object reference.
- ShopMenu.ShopMenu.Sell: settles the sale (coins, sold latch, highlights, details) before adding the card to the inventory. The source adds the card first. The two steps touch disjoint state, so the result is the same.
- InventarioController.InventarioController.Equip: copies the slot first, then removes the old effect and applies the new one. The source removes, copies, then applies. The copy does not touch the player, so the result is the same.
- InventarioController.InventarioController.Equip: the player is a non-null constructor argument. The source passes `playerController` to `RemoveEffect` and `ApplyEffect` without a null check, and those dereference it, so an unassigned field faults partway through an equip; the model does not represent that fault.
- ShopMenu.ShopMenu.SelectItem: requires the slot to hold a card, whereas the source would fail on reading a null `cardData`.
- ShopMenu.PurchaseBounds: is stated for non-negative prices. A negative price in the source would raise the coins above 1000.
- HudVidaUIController.VidaUIController.UpdateVida: the fragment Images are an array of sprite ids. The model does not represent aliasing between Image objects.
- VidaUIController.VidaUIController.UpdateVida: the player is a non-null constructor argument. The source reads it without a null check.
- SaveSystem: `PlayerPrefs` is a map from keys to `SaveData` records, standing for the JSON string the source stores under the key, so JSON serialisation is the identity and preferences kept under other keys with other value types are not represented. `PlayerPrefs.Save`'s flush to disk is not modelled.
- CoinCollectable.CoinCollectable.OnTriggerEnter2D: deactivating the coin object and its delayed `Destroy` are not modelled; the `isCollected` latch alone stops a second collection.
- LoreIntroController: the fades (`FadeInAndPlay`, `FadeOutAndLoad`), the alpha changes, scene loading and the per-character wait are not modelled. The end of the lore only sets a flag that the next scene is loaded.
- C# `int` is 32 bits wide and its arithmetic wraps silently; every integer in the model is unbounded, so no wrap-around is modelled. The sums and differences where it could matter are listed next.
- CoinCollectable.Touched: `coinsCollected += value` does not wrap at 2^31.
- CardData.HealthApplied: `maxHealth += amount` and the raised `currentHealth` do not wrap at 2^31.
- ShopMenu.Purchase: `1000 - price` does not wrap for prices near -2^31.
- PlayerControllerV24.Damaged: `currentHealth - dmg` does not wrap for a negative health or a large damage.
- `Time.timeScale` is kept as a `real` that `ToggleUI` sets to 0 or 1. Nothing in the model computes with it.
- The rest of the repository is not part of this model: cameras, parallax, credits, menus, scene transitions, checkpoints, pickups that only forward to `InventarioController`, the coin steering scripts, and the scripts that use missing `PlayerController` members.

## Findings

| source | as written | input that shows it | evidently intended | confidence | as-written member | corrected member |
|---|---|---|---|---|---|---|
| Assets/Scripts/Player/PlayerController2d.cs:190-228 | `ReadInput` runs before `CheckCollisions`, so the dash gate's `isGrounded` is the previous frame's; on the take-off Update a dash takes the ground branch and leaves `hasDashedInAir` false | a grounded player with the air dash armed presses dash on the Update that leaves the ground, then presses it again in the air once the first dash has finished: two dashes in one airborne period | the ground branch only when the current frame is grounded, so the take-off dash is the one air dash | not executed | PlayerControllerV24.TakeOffAllowsTwoDashes | PlayerControllerV24.IntendedOneDashAfterTakeOff |

The class `PlayerControllerV24.PlayerController2D` follows the code as written; the corrected gate is `PlayerControllerV24.IntendedFrameStep`, and `PlayerControllerV24.OneAirDashPerAirbornePeriod` proves the property for the code as written from the first frame after take-off.
