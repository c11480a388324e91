# OrbitalGa.me core, modelled in Dafny

This project models the core of the current generation of the OrbitalGa.me
multiplayer space shooter. It covers the `common` code and the `server/src`
game loop:

- **The binary codec** (`arrayBufferSchema.ts`). One engine walks a
  descriptor tree to write a value into a buffer, and walks it again to read
  the value back. The descriptor nodes are scalars, plain records, enums,
  bitmasks, uint8- and uint16-counted arrays, and unions keyed on `type` or
  `entityType`.
- **The server-to-client message descriptor** (`serverToClientMessages.ts`).
  This is the six-message union the server sends, with its descriptor
  instantiated in the codec's terms.
- **The player entity** (`playerEntity.ts`):
  - input application: weapon choice, firing, and the momentum ramp and clamp;
  - drop pickup;
  - shield-first damage;
  - the per-tick timer, movement and death;
  - the ammo clock of `postTick`;
  - the hand-written `addBuffer`/`readBuffer` codec pairs.
- **The drop and explosion entities**: their per-tick state machines, their
  owner lookup, and their descriptors.
- **The authoritative server step** (`serverGame.ts`):
  - the queued-message drain with its time budget;
  - synthetic "no input" inputs;
  - join and leave;
  - world-state interest filtering;
  - leaderboard selection;
  - the enemy spawn count;
  - the end-of-tick destroy/postTick pass;
  - the timeout sweep;
  - the re-arm delay.

Everything is immutable datatypes and pure functions. The few loops, such as
the input drain and the disconnect sweep, are methods whose contracts tie
them to a functional reference.

The buffer is a sequence of scalar tokens: `TU8(n)`, `TU16(n)`, `TBits(flags)`,
`TStr(s)`, and so on. The byte layout of ArrayBufferBuilder/Reader is not part
of this model. An integer written to a field of width `w` is wrapped to that
width, which is what the builder's DataView writes do. Under a range
precondition each scalar reads back as written.

Files and modules:

| file | module | contents |
|---|---|---|
| `wrappers.dfy` | `Wrappers` | `Option`, `Result`, suffix predicate |
| `seqs.dfy` | `Seqs` | small sequence identities used by the proofs |
| `items.dfy` | `Items` | weapons, shield levels, drop types shared by the entities |
| `constants.dfy` | `GameConstants` | the constants of `gameConstants.ts` |
| `codec.dfy` | `Codec` | descriptor datatype, token buffer, `AddSchema` / `ReadSchema` |
| `codec_proofs.dfy` | `CodecProofs` | well-formedness, conformance, round-trip lemmas |
| `codec_quirks.dfy` | `CodecQuirks` | what the codec does at its edges (unknown enum codes, unknown tags, bitmask indexing, bare scalars, count wrap, tag keys) |
| `messages.dfy` | `Messages` | the message union, its descriptor, typed encode/decode |
| `messages_proofs.dfy` | `MessagesProofs` | descriptor well-formedness and the message round trip |
| `player.dfy` | `Player` | the player entity's rules |
| `player_proofs.dfy` | `PlayerProofs` | their properties |
| `player_codec.dfy`, `player_codec_proofs.dfy` | `PlayerCodec`, `PlayerCodecProofs` | the hand-written player buffer codec |
| `drop.dfy`, `drop_proofs.dfy` | `Drop`, `DropProofs` | the drop entity |
| `explosion.dfy`, `explosion_proofs.dfy` | `Explosion`, `ExplosionProofs` | the explosion entity |
| `keyed.dfy` | `Keyed` | the keyed list (ArrayHash) the server stores things in |
| `server.dfy`, `server_proofs.dfy` | `Server`, `ServerProofs` | the server step |

Behaviour of the code that the model keeps, though a reader might expect
otherwise:

- **Codec edge cases:**
  - An enum code that names no key decodes to `undefined` and does not fail
    (`CodecQuirks.EnumDecode`).
  - An unknown union tag is an error on read (`CodecQuirks.UnknownTagFails`).
    On write, `undefined` goes out as 0: a variant with no tag field, an enum
    value that names no key, and an absent integer field all write 0
    (`DropProofs.TaglessWritesZero`, `Codec.WriteScalar`).
  - The bitmask writer packs flags by key position, but the reader indexes
    them by each key's declared value. A round trip holds exactly when every
    value equals its position (`CodecQuirks.BitmaskRoundTripIff`).
  - `addSchemaBuffer` has no case for a bare scalar, enum or bitmask node. An
    array of bare scalars therefore cannot be written unless it is empty
    (`CodecQuirks.BareArrayNotEncodable`).
  - A 256-element uint8-counted array writes count 0 (`CodecQuirks.ArrayCountWraps`).
- **Player entity:**
  - A weapon drop of `laser1Spray10` that the player does not own throws
    (`PlayerProofs.SprayDropThrows`). This reads the weapon type as
    including `laser1Spray10`; see Left out.
  - When a per-shot weapon runs out, selection moves to the next list entry,
    which is computed before the entry is removed.
  - `postTick` removes entries from the list while walking it, so the walk
    skips the entry after a removed one (`PlayerProofs.PostTickSkipsNext`).
  - A negative health is written as its uint8 wrap (`PlayerCodecProofs.HealthWraps`).
- **Server step:**
  - A name longer than 10 UTF-16 code units disconnects and sends no error
    message (`ServerProofs.LongNameDisconnects`). Six emoji are already too
    long (`ServerProofs.AstralNameDisconnects`).
  - A user who joins again is first removed through `userLeave`, which deletes
    their outbound queue. The `joined` reply to the second join is therefore
    dropped (`ServerProofs.RejoinLosesJoined`).
  - The synthetic "no input" input goes to every user that was present when
    the drain started and sent no handled input. Users who join during the
    drain get none.

## Model

| member | source | states |
|---|---|---|
| Codec.WrapUnsigned | common/src/parsers/arrayBufferSchema.ts:137-139 | an unsigned write lands in [0, 2^w) and leaves an in-range value unchanged |
| Codec.WrapSigned | common/src/parsers/arrayBufferSchema.ts:140-142 | a signed write lands in [-2^(w-1), 2^(w-1)) and leaves an in-range value unchanged |
| Codec.WriteScalar | common/src/parsers/arrayBufferSchema.ts:136-152 | every value of the scalar's kind can be written, and an integer field given undefined writes 0 |
| Codec.ReadScalar | common/src/parsers/arrayBufferSchema.ts:5-18 | a scalar read consumes exactly one token |
| Codec.ReadCount | common/src/parsers/arrayBufferSchema.ts:33-50 | an array count read consumes one token and is below 256 or 65536 |
| Codec.Get | common/src/parsers/arrayBufferSchema.ts:137 | `value[key]` finds a value exactly when some entry has that key, and the value is that entry's |
| Codec.FindVariant | common/src/parsers/arrayBufferSchema.ts:122-123 | `elements[value.type]` yields a listed variant with that key, or none when no variant has it |
| Codec.FindTag | common/src/parsers/arrayBufferSchema.ts:53-58 | the reader's tag search yields a listed variant with that tag, or none when no variant has it |
| Codec.CodeOf | common/src/parsers/arrayBufferSchema.ts:86-88 | the enum writer's code is one the enum lists for that key |
| Codec.KeyOf | common/src/parsers/arrayBufferSchema.ts:20-23 | the enum reader's key is one listed with that code, or none when no key has it |
| Codec.MaskBits | common/src/parsers/arrayBufferSchema.ts:72-79 | the bitmask writer emits one flag per key in key order, set exactly when the object holds `true` there (an absent key is a clear flag), and fails exactly when some key holds a value that is neither boolean nor undefined |
| Codec.UnmaskBits | common/src/parsers/arrayBufferSchema.ts:24-32 | the bitmask reader gives each key the bit at that key's declared value |
| Codec.ReadSchema | common/src/parsers/arrayBufferSchema.ts:159-180 | reading never grows the rest of the buffer |
| Codec.ReadItems | common/src/parsers/arrayBufferSchema.ts:33-50 | an array read returns exactly the counted number of elements |
| Codec.ReadFields | common/src/parsers/arrayBufferSchema.ts:164-174 | the record read loop never grows the rest of the buffer |
| Codec.ReadSpec | common/src/parsers/arrayBufferSchema.ts:170-171 | a field read never grows the rest of the buffer |
| CodecProofs.SchemaConsumesPrefix | common/src/parsers/arrayBufferSchema.ts:159-180 | what a read leaves over is a suffix of its input: it consumes a prefix and never looks back |
| CodecProofs.RoundTrip | common/src/parsers/arrayBufferSchema.ts:102-180 | for a well-formed descriptor and a conforming value, the write succeeds and the read returns the value and exactly the tokens that followed |
| CodecProofs.RoundTripArray | common/src/parsers/arrayBufferSchema.ts:107-118 | an array with fewer elements than its count width allows (empty included) reads back whole after its count |
| CodecProofs.RoundTripLookup | common/src/parsers/arrayBufferSchema.ts:121-127 | a union value reads back with its tag key restored, when the variant tags are distinct |
| CodecProofs.RoundTripFields | common/src/parsers/arrayBufferSchema.ts:128-156 | a record's non-tag fields read back in descriptor key order, whatever extra entries the value carries |
| CodecProofs.RoundTripSpec | common/src/parsers/arrayBufferSchema.ts:132-155 | one record field, scalar or nested, reads back as written |
| CodecProofs.RoundTripEnum | common/src/parsers/arrayBufferSchema.ts:86-88 | an enum key reads back as the same key when codes are distinct |
| CodecProofs.RoundTripBitmask | common/src/parsers/arrayBufferSchema.ts:72-79 | a bitmask object reads back unchanged when its keys are positional |
| CodecProofs.RoundTripItems | common/src/parsers/arrayBufferSchema.ts:109-111 | the element loop writes and reads back every element in order |
| CodecProofs.EnumKeyOfCode | common/src/parsers/arrayBufferSchema.ts:20-23 | with distinct codes, the reader's key search inverts the writer's code lookup |
| CodecProofs.FindTagUnique | common/src/parsers/arrayBufferSchema.ts:53-56 | with distinct tags, the reader selects exactly the variant whose tag was written |
| CodecQuirks.EnumDecode | common/src/parsers/arrayBufferSchema.ts:20-23 | an enum read always succeeds on one byte, and yields undefined exactly when no key has that code |
| CodecQuirks.UnknownTagFails | common/src/parsers/arrayBufferSchema.ts:51-68 | a union tag matching no variant is a "schema not found" error |
| CodecQuirks.KnownTagSelects | common/src/parsers/arrayBufferSchema.ts:53-55 | a known tag that reads successfully yields an object whose first entry names the matching variant |
| CodecQuirks.BitmaskRoundTripIff | common/src/parsers/arrayBufferSchema.ts:24-32 | every bitmask round-trips if and only if each key's value equals its position |
| CodecQuirks.OneHotBreaks | common/src/parsers/arrayBufferSchema.ts:72-79 | a key whose value is not its position gives a concrete bitmask that reads back differently |
| CodecQuirks.BareNodeNotEncodable | common/src/parsers/arrayBufferSchema.ts:102-157 | a bare scalar, enum or bitmask node at the top of a write cannot be written |
| CodecQuirks.BareArrayNotEncodable | common/src/parsers/arrayBufferSchema.ts:107-118 | an array of bare scalars can be written if and only if it is empty |
| CodecQuirks.ArrayCountWraps | common/src/parsers/arrayBufferSchema.ts:108 | 256 elements under a uint8 count write count 0 and read back as the empty array |
| CodecQuirks.NonTagFields | common/src/parsers/arrayBufferSchema.ts:129-131 | the fields the loops act on are drawn from the descriptor and none is `type`/`entityType` |
| CodecQuirks.TagKeysSkipped | common/src/parsers/arrayBufferSchema.ts:129-131 | writing and reading a record behave as if its `type`/`entityType` fields were absent |
| CodecQuirks.ReadFieldsNoTagKeys | common/src/parsers/arrayBufferSchema.ts:167-169 | a record read never produces a `type`/`entityType` entry |
| CodecQuirks.TagEntryIgnored | common/src/parsers/arrayBufferSchema.ts:128-131 | a value's tag entry has no effect on the bytes its fields write |
| GameConstants.ConstantsExact | common/src/game/gameConstants.ts:28-29 | 0.8 x 900 and 1.4 x 1950 are whole numbers (720 and 2730), and half the range is 1365, so the integer constants lose nothing |
| Messages.Assign | common/src/models/serverToClientMessages.ts:47 | a spread or later key either appends the field or replaces it in place, and the field ends up present |
| Messages.RowValues | common/src/models/serverToClientMessages.ts:50-61 | each leaderboard row becomes one record value, in order |
| Messages.ToValues | common/src/models/serverToClientMessages.ts:22-40 | each typed message becomes one codec value, in order |
| Messages.OfRows | common/src/models/serverToClientMessages.ts:50-61 | decoded rows are as many as the values read |
| Messages.OfValues | common/src/models/serverToClientMessages.ts:22-40 | decoded messages are as many as the values read |
| MessagesProofs.AssignNew | common/src/models/serverToClientMessages.ts:47 | a key not yet present goes last |
| MessagesProofs.AssignAllAppends | common/src/models/serverToClientMessages.ts:47 | spreading fresh, distinct keys appends them in order |
| MessagesProofs.AssignReplaces | common/src/models/serverToClientMessages.ts:47 | an existing key keeps its position and no key is added |
| MessagesProofs.AssignDistinct | common/src/models/serverToClientMessages.ts:47 | object-literal assembly keeps keys distinct |
| MessagesProofs.JoinedShape | common/src/models/serverToClientMessages.ts:47 | the joined descriptor is tag 3 and serverVersion, then the live player keys, with entityType redefined in place or appended; it is well formed |
| MessagesProofs.PongOk | common/src/models/serverToClientMessages.ts:45 | pong is well formed with tag 1 |
| MessagesProofs.ErrorOk | common/src/models/serverToClientMessages.ts:46 | error is well formed with tag 2 and its reason enum has distinct codes |
| MessagesProofs.ScoreKeysDistinct | common/src/models/serverToClientMessages.ts:50-61 | the ten leaderboard keys are distinct |
| MessagesProofs.ScoreFieldsWellFormed | common/src/models/serverToClientMessages.ts:50-61 | the leaderboard row descriptor is well formed |
| MessagesProofs.LeaderboardOk | common/src/models/serverToClientMessages.ts:48-63 | leaderboard is well formed with tag 4 |
| MessagesProofs.SpectatingOk | common/src/models/serverToClientMessages.ts:64 | spectating is well formed with tag 5 |
| MessagesProofs.WorldStateOk | common/src/models/serverToClientMessages.ts:65-84 | worldState is well formed with tag 6 over any well-formed entity union |
| MessagesProofs.JoinedOk | common/src/models/serverToClientMessages.ts:47 | joined is well formed with tag 3 |
| MessagesProofs.SixTagged | common/src/models/serverToClientMessages.ts:44-66 | six variants tagged 1..6 with distinct keys form a well-formed type union |
| MessagesProofs.MessageKeys | common/src/models/serverToClientMessages.ts:45-65 | the six message keys are distinct |
| MessagesProofs.SchemaWellFormed | common/src/models/serverToClientMessages.ts:42-85 | the whole descriptor is a well-formed uint16-counted array of a union whose k-th variant has tag k+1 |
| MessagesProofs.RowConforms | common/src/models/serverToClientMessages.ts:50-61 | a row whose counters fit 32 bits and rank fits 16 bits can be encoded |
| MessagesProofs.RowsConform | common/src/models/serverToClientMessages.ts:50-51 | fewer than 65536 such rows form an encodable uint16-counted array |
| MessagesProofs.ErrorConforms | common/src/models/serverToClientMessages.ts:46 | an error message can be encoded under the message union, whatever the other descriptors are |
| MessagesProofs.MessageConforms | common/src/models/serverToClientMessages.ts:42-85 | every in-range message of any of the six kinds can be encoded |
| MessagesProofs.OfRowValue | common/src/models/serverToClientMessages.ts:50-61 | a row read back from its record value is the same row |
| MessagesProofs.OfToValue | common/src/models/serverToClientMessages.ts:22-40 | converting a message to a codec value and back returns the same message |
| MessagesProofs.OfToValues | common/src/models/serverToClientMessages.ts:22-40 | the same holds for a whole message list |
| MessagesProofs.BatchConforms | common/src/models/serverToClientMessages.ts:42-43 | a batch of fewer than 65536 in-range messages can be encoded under the descriptor |
| MessagesProofs.RoundTripWith | common/src/models/serverToClientMessages.ts:42-85 | such a batch round-trips through the codec under the descriptor |
| MessagesProofs.DecodeEncode | common/src/models/serverToClientMessages.ts:42-85 | typed encode then decode returns the same message list, whatever bytes follow |
| Player.FindOwned | common/src/entities/playerEntity.ts:132 | the weapon lookup returns the first entry holding that weapon, or none when none does |
| Player.Without | common/src/entities/playerEntity.ts:91 | filtering a weapon out keeps every other entry and only those |
| Player.NewPlayer | common/src/entities/playerEntity.ts:35-61 | a new player has the given health, selects its first weapon, and has shot timer 1 |
| Player.Begin | common/src/entities/playerEntity.ts:122-128 | starting an input counts the tick, records the keys, clears the input flags, and selects the requested weapon |
| Player.Shoot | common/src/entities/playerEntity.ts:129-171 | a shot happens exactly when firing is allowed; it then resets the timer, counts shotsFired and spawns the selected weapon's shot 6 above the player |
| Player.Spend | common/src/entities/playerEntity.ts:173-186 | a per-shot weapon loses one round, and when it reaches zero it is removed and selection moves to the next entry; other ammo types are untouched |
| Player.Steer | common/src/entities/playerEntity.ts:193-221 | each pressed direction ramps momentum by 30 and clamps it to the side, forward or reverse limit; unpressed axes are untouched |
| Player.ApplyInput | common/src/entities/playerEntity.ts:121-222 | applying an input counts the tick, records the keys, and never changes health or identity |
| Player.AddDrop | common/src/entities/playerEntity.ts:78-119 | a pickup fails exactly for an unowned laser1Spray10; each drop kind touches only its own part (health, weapons, shield) |
| Player.Hurt | common/src/entities/playerEntity.ts:280-305 | damage pushes momentum; an intact shield absorbs first, health drops by the leftover; damageTaken is counted on the server; an explosion follows unless fully absorbed |
| Player.Die | common/src/entities/playerEntity.ts:261-267 | dying zeroes health, marks dead, explodes and leaves the board; a set shield is destroyed first |
| Player.UpdatePosition | common/src/entities/playerEntity.ts:378-405 | x moves by its momentum; an axis with no input this tick has its momentum multiplied by the deceleration factor; a momentum below 3 in size then snaps to 0; y stays within [0.1, 1.1] screen heights and the clamp zeroes momentumY |
| Player.GameTick | common/src/entities/playerEntity.ts:269-278 | the shoot timer counts down to 0 and never goes negative; the player dies on the server exactly when health is at or below 0 |
| Player.PostTick | common/src/entities/playerEntity.ts:307-329 | post-tick counts aliveTime by one tick length and changes nothing but the weapon list and selection |
| PlayerProofs.AddDropStocked | common/src/entities/playerEntity.ts:103 | no pickup lifts a weapon's ammo above its maximum |
| PlayerProofs.ApplyInputStocked | common/src/entities/playerEntity.ts:173-183 | firing keeps every weapon's ammo within its maximum |
| PlayerProofs.SpendStocked | common/src/entities/playerEntity.ts:176-182 | spending a round keeps every weapon's ammo within its maximum |
| PlayerProofs.HealthDropCapped | common/src/entities/playerEntity.ts:80-83 | a health drop adds its amount but never lifts health above the starting health |
| PlayerProofs.OwnedWeaponRefills | common/src/entities/playerEntity.ts:84-103 | a drop of an owned weapon adds ammo to that entry only, capped at maxAmmo |
| PlayerProofs.Laser1DropIgnored | common/src/entities/playerEntity.ts:88-89 | a laser1 drop when laser1 is not owned changes nothing |
| PlayerProofs.Laser2ReplacesLaser1 | common/src/entities/playerEntity.ts:90-94 | a laser2 drop puts laser2 first, removes laser1, and moves a laser1 selection to laser2 |
| PlayerProofs.SprayDropThrows | common/src/entities/playerEntity.ts:99-100 | an unowned laser1Spray10 drop reaches the unreachable case and throws |
| PlayerProofs.ShieldNeverWeaker | common/src/entities/playerEntity.ts:105-115 | a medium or big shield drop (the only levels drops carry) never weakens the shield and refills it to the resulting level's maximum |
| PlayerProofs.ShotCostsOneRound | common/src/entities/playerEntity.ts:176-182 | a per-shot fire costs exactly one round, and an emptied weapon goes with selection moving on |
| PlayerProofs.NoShotWhileCooling | common/src/entities/playerEntity.ts:129-131 | on the client, or while the shoot timer is positive, an input fires nothing |
| PlayerProofs.PostTickCalm | common/src/entities/playerEntity.ts:311-314 | when no time-ammo weapon runs out, each time weapon loses one tick length of ammo and the list keeps its shape |
| PlayerProofs.PostTickLaser2Expires | common/src/entities/playerEntity.ts:315-320 | an expiring laser2 is replaced by laser1 at the front, and a laser2 selection moves to laser1 |
| PlayerProofs.PostTickSkipsNext | common/src/entities/playerEntity.ts:321-325 | removing an expired weapon mid-walk skips the next weapon's tick |
| PlayerProofs.CoastingSlows | common/src/entities/playerEntity.ts:384-395 | with a deceleration factor in [0, 1], an axis with no input never gains momentum |
| PlayerProofs.UnguardedHitsAdd | common/src/entities/playerEntity.ts:280-305 | two unshielded hits cost the sum of their damages and add both pushes |
| PlayerProofs.AbsorbedHitHarmless | common/src/entities/playerEntity.ts:280-305 | a hit the shield absorbs entirely changes only momentum and spawns no explosion |
| PlayerProofs.DieIdempotent | common/src/entities/playerEntity.ts:261-267 | dying a second time leaves the player as the first death did |
| PlayerProofs.PostTickStocked | common/src/entities/playerEntity.ts:307-329 | post-tick keeps every weapon's ammo within its maximum |
| PlayerCodec.AddBuffer | common/src/entities/playerEntity.ts:407-424 | the player writes health, colour and the five input bits |
| PlayerCodec.ReadBuffer | common/src/entities/playerEntity.ts:470-486 | the player read consumes three tokens and yields health in a byte |
| PlayerCodec.AddWeapon | common/src/entities/playerEntity.ts:444-451 | a weapon can be written exactly when the switch table has a code for it (a missing key is taken to throw; see Left out) |
| PlayerCodec.AddBufferLive | common/src/entities/playerEntity.ts:425-442 | the live write succeeds exactly when the selected weapon and every listed weapon are in the switch table (under the same reading of `addSwitch`) |
| PlayerCodec.ReadBufferLive | common/src/entities/playerEntity.ts:487-504 | the live read yields fewer than 256 weapons |
| PlayerCodecProofs.PlayerRoundTrip | common/src/entities/playerEntity.ts:407-486 | a player with health in a byte reads back unchanged |
| PlayerCodecProofs.HealthWraps | common/src/entities/playerEntity.ts:410-474 | any health reads back as its uint8 wrap (-2 reads as 254) |
| PlayerCodecProofs.CodeRoundTrip | common/src/entities/playerEntity.ts:444-513 | a weapon's code reads back as the same weapon |
| PlayerCodecProofs.WeaponsRoundTrip | common/src/entities/playerEntity.ts:437-502 | the weapon list with uint16 ammo reads back in order |
| PlayerCodecProofs.LiveRoundTrip | common/src/entities/playerEntity.ts:425-504 | a live player whose weapons all have codes reads back unchanged |
| PlayerCodecProofs.SourceTableMissesSpray | common/src/entities/playerEntity.ts:444-451 | the table has codes for laser1, laser2, rocket and torpedo, and none for laser1Spray10 |
| PlayerCodecProofs.SprayNotEncodable | common/src/entities/playerEntity.ts:431-440 | a live player whose selected weapon is laser1Spray10 cannot be written; the same holds for a list entry, which the game never produces (the starting weapons exclude it and an unowned spray drop throws) |
| PlayerCodecProofs.SpraySelectedByInput | common/src/entities/playerEntity.ts:125-127 | an input naming laser1Spray10 selects it, so a player reaches that unwritable selection |
| PlayerCodecProofs.LiveRoundTripAll | common/src/entities/playerEntity.ts:425-513 | with a code for every weapon, every in-range live player round-trips |
| Drop.Collide | common/src/entities/dropEntity.ts:44-52 | touching a player destroys the drop and applies the pickup exactly on the server; collision never blocks |
| Drop.GameTick | common/src/entities/dropEntity.ts:54-59 | a drop falls by 10 and is destroyed once below 1.2 screen heights |
| Drop.Ceiling | common/src/entities/dropEntity.ts:83 | `Math.ceil` is the least integer not below its argument |
| Drop.Amount | common/src/entities/dropEntity.ts:81-94 | the amount lies in the size's range (big 5-10, med 4-8, small 3-6, tiny 1-3) |
| Drop.RandomDrop | common/src/entities/dropEntity.ts:74-111 | the drop has the drawn kind; shields are big exactly when amount > 7; laser weapons carry amount x 1000 ammo, others amount |
| Drop.WeaponOfName | common/src/entities/dropEntity.ts:126 | a weapon name decodes to the weapon with that name |
| Drop.DropModelFields | common/src/entities/dropEntity.ts:119-140 | the drop model descriptor has the untagged drop union as its `drop` field |
| Drop.DecodeDrop | common/src/entities/dropEntity.ts:121-138 | decoding a drop never grows the rest of the buffer |
| DropProofs.CollideSides | common/src/entities/dropEntity.ts:44-52 | client and server both destroy the drop; only the server hands the pickup on |
| DropProofs.Falls | common/src/entities/dropEntity.ts:54-59 | after n ticks a drop is 10n lower and marked once it passed the line |
| DropProofs.MarkedOnFirstTickBelow | common/src/entities/dropEntity.ts:56-57 | destruction is requested on the first tick that ends below the line, not earlier |
| DropProofs.AmountCovers | common/src/entities/dropEntity.ts:81-94 | every amount in the size's range is produced by some draw |
| DropProofs.SmallMeteorsGiveMediumShields | common/src/entities/dropEntity.ts:88-107 | small and tiny meteors only ever give medium shields |
| DropProofs.WeaponAmmoRange | common/src/entities/dropEntity.ts:97-103 | laser drops carry 1000-10000 ammo in thousands; rocket and torpedo 1-10 |
| DropProofs.UntaggedWritesTagZero | common/src/entities/dropEntity.ts:122-138 | with no numeric `type` tags, every drop is written behind tag byte 0 (undefined stored as a byte) followed by its fields, and that buffer reads back as "schema not found" for tag 0 |
| DropProofs.TaglessWritesZero | common/src/parsers/arrayBufferSchema.ts:121-123 | a union variant without a `type` field is written as byte 0 followed by its fields |
| DropProofs.UntaggedNotDecodable | common/src/entities/dropEntity.ts:122-138 | and no buffer reads back under it: every tag is "schema not found" |
| DropProofs.DropModelUnreadable | common/src/entities/dropEntity.ts:119-140 | so no buffer reads back under the whole drop model descriptor |
| DropProofs.WeaponDropConforms | common/src/entities/dropEntity.ts:122-127 | once the variants are tagged, a weapon drop whose ammo fits the ammo width can be written |
| DropProofs.Uint8AmmoWraps | common/src/entities/dropEntity.ts:124-127 | once the variants are tagged but ammo is still uint8, a weapon drop reads back with its ammo modulo 256 |
| DropProofs.LaserAmmoWraps | common/src/entities/dropEntity.ts:98-125 | with the tags added and ammo uint8, every laser drop reads back as a different drop |
| DropProofs.BigLaserDropReadsSixteen | common/src/entities/dropEntity.ts:99-125 | with the tags added and ammo uint8, a big meteor's laser2 drop of 10000 ammo reads back as 16 |
| DropProofs.TaggedWellFormedWith | common/src/entities/dropEntity.ts:122-138 | the drop union with tags added is well formed whatever the ammo width |
| DropProofs.TaggedWellFormed | common/src/entities/dropEntity.ts:119-140 | the descriptor with tags added and uint16 ammo is well formed |
| DropProofs.DropValueInverse | common/src/entities/dropEntity.ts:14-23 | a drop converted to a codec value and back is unchanged |
| DropProofs.TaggedRoundTrip | common/src/entities/dropEntity.ts:14-140 | under the corrected descriptor every in-range drop round-trips |
| DropProofs.RandomDropsRoundTrip | common/src/entities/dropEntity.ts:74-140 | every drop the game can generate round-trips under the corrected descriptor |
| Explosion.Create | common/src/entities/explosionEntity.ts:10-21 | a new explosion has 5 ticks to live, is not destroyed, and takes intensity and owner from its message |
| Explosion.RealPosition | common/src/entities/explosionEntity.ts:23-37 | without a live owner (absent, 0, or gone) the position is its own; otherwise its own offset by the owner's |
| Explosion.Collide | common/src/entities/explosionEntity.ts:39-41 | collision returns false and changes nothing |
| Explosion.GameTick | common/src/entities/explosionEntity.ts:43-48 | each tick counts down by one and asks for destruction once the count reaches 0 |
| Explosion.Serialize | common/src/entities/explosionEntity.ts:56-63 | the message carries intensity and owner unchanged |
| Explosion.Reconcile | common/src/entities/explosionEntity.ts:50-54 | reconciling keeps identity and countdown |
| ExplosionProofs.CountsDown | common/src/entities/explosionEntity.ts:43-48 | after n ticks the count is n lower and the mark is set once it reached 0 |
| ExplosionProofs.DestroyedOnFifthTick | common/src/entities/explosionEntity.ts:10-48 | a new explosion asks to be destroyed on exactly its fifth tick |
| ExplosionProofs.OwnerGone | common/src/entities/explosionEntity.ts:24-27 | once the owner is gone the explosion sits at its own position |
| ExplosionProofs.FollowsOwner | common/src/entities/explosionEntity.ts:23-37 | moving the owner moves the explosion by the same amount; moving any other entity does not |
| ExplosionProofs.ZeroIsNoOwner | common/src/entities/explosionEntity.ts:24 | owner id 0 names no owner |
| ExplosionProofs.SerializeCreate | common/src/entities/explosionEntity.ts:16-63 | a new explosion serializes back to its message |
| ExplosionProofs.ReconcileSerialize | common/src/entities/explosionEntity.ts:50-63 | reconcile then serialize returns the message; reconciling with its own snapshot changes nothing |
| ExplosionProofs.ExplosionShape | common/src/entities/explosionEntity.ts:72-77 | the descriptor is the tag, the base keys, intensity, then ownerEntityId |
| ExplosionProofs.ExplosionVariantOk | common/src/entities/explosionEntity.ts:72-77 | the descriptor carries entity tag 9 and is well formed |
| ExplosionProofs.ExplosionRoundTrip | common/src/entities/explosionEntity.ts:72-77 | in any entity union listing it, an explosion writes tag 9 first and reads back unchanged |
| Keyed.Find | server/src/game/serverGame.ts:123 | `lookup` finds the first entry with the key, or reports that none has it |
| Keyed.Remove | server/src/game/serverGame.ts:331 | `remove` drops every entry with the key and keeps all others |
| Server.OnJoin | server/src/game/serverGame.ts:41-43 | a new connection gets an empty outbound queue and nothing else changes |
| Server.ProcessMessage | server/src/game/serverGame.ts:165-167 | an incoming message is appended to the inbound queue |
| Server.SendMessageToClient | server/src/game/serverGame.ts:169-173 | a message is appended to the connection's queue when it has one, and dropped otherwise |
| Server.UserLeave | server/src/game/serverGame.ts:370-383 | leave removes the connection from spectators, users and outbound queues and touches no other queue |
| Server.Admit | server/src/game/serverGame.ts:351-367 | admission adds one user, a player and a small shield, and a board entry, and uses two ids |
| Server.UserJoin | server/src/game/serverGame.ts:320-327 | a join from a dead connection changes nothing |
| Server.SpectatorJoin | server/src/game/serverGame.ts:307-318 | spectating appends a spectator entry and leaves users and entities alone |
| Server.ServerApplyInput | server/src/game/serverGame.ts:136 | the server applies the input and records its sequence number |
| Server.ApplyTo | server/src/game/serverGame.ts:136 | an input changes only the entity it is for |
| Server.Handle | server/src/game/serverGame.ts:106-143 | handling a queued message only ever removes users from the no-input set |
| Server.FirstTrip | server/src/game/serverGame.ts:99-105 | the drain stops at the first index where the budget tripped, or at the end |
| Server.ProcessInputs | server/src/game/serverGame.ts:93-163 | the drain handles the messages before the trip in order, keeps the rest in order, then sends the synthetic inputs |
| Server.Nearby | server/src/game/serverGame.ts:488-505 | the other entities in a user's view come from the entity list |
| Server.WorldFor | server/src/game/serverGame.ts:493-497 | a user's world state starts with their own live model |
| Server.SendWorldState | server/src/game/serverGame.ts:465-512 | sending world state changes only the outbound queues |
| Server.SpectatorEntity | server/src/game/serverGame.ts:431 | the spectator camera is a spectator entity from the list, or none exists |
| Server.Broadcast | server/src/game/serverGame.ts:455-462 | each spectator gets exactly one direct socket send of the message |
| Server.SendSpectatorWorldState | server/src/game/serverGame.ts:430-463 | spectator world state goes straight to the socket; with no camera nothing happens |
| Server.Named | server/src/game/serverGame.ts:394-396 | every score row gets its user's name, in order |
| Server.TopTen | server/src/game/serverGame.ts:398 | the top ten has ten rows, or all of them when fewer |
| Server.SendLeaderboard | server/src/game/serverGame.ts:390-428 | with no users or spectators nothing is sent; otherwise only queues and socket change |
| Server.Flush | server/src/game/serverGame.ts:259-265 | flushing empties the listed connections' queues and leaves the others unchanged |
| Server.EndOfTick | server/src/game/serverGame.ts:277-284 | the end-of-tick loop's result equals the functional survivors list |
| Server.Sweep | server/src/game/serverGame.ts:286-304 | the sweep issues exactly the disconnects of the reference order, nothing else |
| Server.Disconnects | server/src/game/serverGame.ts:291-302 | one disconnect per expired connection, in order |
| Server.SpawnCount | server/src/game/serverGame.ts:202-215 | spawning tops the enemies up to the target and never overshoots it |
| Server.NextTickDelay | server/src/game/serverGame.ts:81-83 | the re-arm delay is between 1 and the tick rate |
| Server.FinishTick | server/src/game/serverGame.ts:253-304 | the tick's second half keeps users, spectators and connections, and leaves exactly the surviving entities, post-ticked |
| ServerProofs.LeaveKeepsConsistent | server/src/game/serverGame.ts:370-383 | leave keeps one user per connection, one entity per id, user names distinct, and every entity id below the id counter |
| ServerProofs.JoinWithoutConnection | server/src/game/serverGame.ts:321-327 | a join without a live connection changes nothing |
| Server.Utf16Length | server/src/game/serverGame.ts:337 | `name.length` counts UTF-16 code units: between the character count and twice it, equal to it exactly when no character lies outside the Basic Multilingual Plane |
| ServerProofs.LongNameDisconnects | server/src/game/serverGame.ts:337-340 | a name longer than 10 UTF-16 code units disconnects and adds nothing |
| ServerProofs.AstralLengthDoubles | server/src/game/serverGame.ts:337 | a name made only of characters outside the Basic Multilingual Plane has twice its character count as length |
| ServerProofs.AstralNameDisconnects | server/src/game/serverGame.ts:337-340 | so six emoji already disconnect |
| ServerProofs.NameInUseRejected | server/src/game/serverGame.ts:341-349 | a taken name gets one direct error{nameInUse} and adds nothing |
| ServerProofs.JoinAdmits | server/src/game/serverGame.ts:329-367 | a good join removes the spectator entry, adds one user, a player, a small shield and a board entry, and queues one joined message carrying version 9 |
| ServerProofs.RejoinLosesJoined | server/src/game/serverGame.ts:333-367 | a user joining again ends up admitted but with no outbound queue, so the joined message is lost |
| ServerProofs.JoinKeepsConsistent | server/src/game/serverGame.ts:320-368 | every join outcome keeps one user per connection, one entity per id, user names distinct, and every entity id below the id counter |
| ServerProofs.LeaveKillsPlayer | server/src/game/serverGame.ts:375-382 | a leaving user's player is dead with health 0, and its entries are gone |
| ServerProofs.DrainOnlyRemoves | server/src/game/serverGame.ts:94-127 | the no-input set only shrinks during the drain and stays duplicate-free |
| ServerProofs.NoInputsKeepPending | server/src/game/serverGame.ts:107-121 | join, spectate and ping leave the no-input set alone |
| ServerProofs.DrainAppend | server/src/game/serverGame.ts:99-144 | draining two runs of messages is draining one after the other |
| ServerProofs.InputServes | server/src/game/serverGame.ts:122-127 | a handled input from a known user removes that user's player from the no-input set |
| ServerProofs.ApplyToTarget | server/src/game/serverGame.ts:136 | the input reaches exactly its player, through the server's applyInput |
| ServerProofs.SynthesizeServesOnce | server/src/game/serverGame.ts:152-162 | each player in the no-input set gets exactly one all-false input with the next sequence number and its own weapon; others are untouched |
| ServerProofs.NearbyIff | server/src/game/serverGame.ts:488-505 | an entity is in a user's view if and only if it is listed, within half a screen range of the user, and not the user |
| ServerProofs.WorldForShape | server/src/game/serverGame.ts:483-511 | the world state is the user's own model, then other entities in range, none of them the user |
| ServerProofs.SendWorldToEach | server/src/game/serverGame.ts:483-511 | each user with a player gets exactly one world-state message appended |
| ServerProofs.SendWorldUntouched | server/src/game/serverGame.ts:483-511 | connections of no user get nothing |
| ServerProofs.InBoxIff | server/src/game/serverGame.ts:435-453 | the spectator box holds exactly the listed entities within half a screen range of the camera |
| ServerProofs.SpectatorsGetTheBox | server/src/game/serverGame.ts:430-463 | each spectator receives exactly one world state with the box, in spectator order |
| ServerProofs.TopTenPrefix | server/src/game/serverGame.ts:398 | the top ten is the first ten rows, or all when fewer |
| ServerProofs.SendAllQueues | server/src/game/serverGame.ts:169-173 | messages for a connection with a queue are appended in send order; for a connection without one they are dropped and nothing changes |
| ServerProofs.FlushOneDelivers | server/src/game/serverGame.ts:259-265 | flushing a connection sends its whole non-empty queue as one batch and leaves it empty; an empty queue sends nothing |
| ServerProofs.JoinSendFlushDelivers | server/src/game/serverGame.ts:41-43 | after onJoin, the messages sent before the next flush arrive in send order as one batch |
| ServerProofs.UnjoinedSendDropped | server/src/game/serverGame.ts:169-173 | sending to a connection that never joined, then flushing it, changes nothing |
| ServerProofs.BoardForShape | server/src/game/serverGame.ts:399-417 | a user gets the top ten, plus their own row when outside it; a user with no row gets nothing |
| ServerProofs.SurvivorsAreUnmarked | server/src/game/serverGame.ts:277-284 | end of tick removes the marked entities and post-ticks each other one exactly once, in order |
| ServerProofs.UnmarkedIff | server/src/game/serverGame.ts:279-280 | an entity survives if and only if it was listed and not marked |
| ServerProofs.SweepIff | server/src/game/serverGame.ts:286-304 | a connection is disconnected if and only if it is a timed-out user, an over-long spectator, or ping-silent |
| ServerProofs.SweepOnce | server/src/game/serverGame.ts:287-303 | no connection is disconnected twice in one sweep |
| ServerProofs.EnemyTargets | server/src/game/serverGame.ts:203 | the target is ceil(1.5 x min(players, 4)), at most 6 |
| ServerProofs.SpawnReference | server/src/game/serverGame.ts:202-215 | the spawn count equals max(0, target - enemies) and is at most 6 |
| ServerProofs.DelayCases | server/src/game/serverGame.ts:81-83 | the delay is the full tick for no work, tick minus work time in between, and 1 once the work overran |

## Left out

- Floating point: positions and momenta are exact reals, and float32/float64
  payloads are opaque tokens.
- Codec.WriteScalar: the integer fields store what a DataView write stores
  for a number, a boolean or undefined. A string, a float or an object written
  to an integer field, and undefined written to a float, boolean, string or
  optional field, go through conversions of the unseen builder and are an
  `Unmodelled` error.
- Codec.AddSchema: a record, union or array written from a primitive other
  than undefined, and a union tag or enum value that is a number or an object
  (its conversion to a property key), are an `Unmodelled` error. Writing a
  record or union from undefined is the TypeError the source throws,
  including a record with no non-tag keys, for which the source writes
  nothing. A record field whose descriptor key names a property inherited
  from `Object.prototype` and which the value lacks is read as undefined,
  where JavaScript finds the inherited property.
- Codec.FindVariant: searches the variants' own keys only. A union tag that
  names no variant but a property inherited from `Object.prototype`
  (`toString`, `constructor`, `__proto__`, ...) makes `elements[key]` a
  function or the prototype: the source then writes the byte 0 and no
  fields, while `Codec.AddSchema` reports the TypeError (`ShapeMismatch`) it
  reports for any other unknown tag.
- Codec.MaskBits: a flag holding a value that is neither boolean nor
  undefined goes through the unseen `addBits` and is an `Unmodelled` error.
- PlayerCodec.AddWeapon: `ArrayBufferBuilder.addSwitch` and
  `Utils.switchNumber` are not part of this model. A weapon or code missing
  from their table is taken to throw: an error on write (`NotEncodable`) and
  on read (`Malformed`). `PlayerCodec.AddBufferLive`,
  `PlayerCodecProofs.SprayNotEncodable` and the second finding below rest on
  this reading.
- Randomness is passed in as parameters: the random draw `r` and the weapon
  `pick` in `randomDrop`, a player's colour and start position (`Env`), and
  the weighted kind choice.
- Wall-clock reads: each transition takes one `now`. The 100 ms drain budget
  is a predicate `tripped(i)`. The timestamps written during the drain all
  take that `now`.
- The socket (serverSocket.ts) is not part of this model. Sends and
  disconnects are recorded as actions, and what the socket does afterwards is
  not modelled.
- Logging, `process.memoryUsage`, and the tick-50 boss comment in `serverTick`.
- The other entities' `gameTick`, `collide` and `postTick` are not modelled.
  This covers meteors, enemies, shots and shields. The server step takes their
  `postTick` as a parameter, and `checkCollisions` is not modelled.
- Meteor spawning every 50 ticks (serverGame.ts:222-239) and the positions of
  spawned enemies are left out. Only the enemy spawn count is modelled.
- `updateSpectatorPosition` and `initGame` (serverGame.ts:385-388, 514-522)
  are left out. They place the spectator camera at a random x.
- Player.PostTick and Player.Hurt: leaderboard counters, explosions and
  shield destruction are returned as effects in source order. Applying those
  effects to the rest of the game is not modelled.
- `collide`, `causedDamage`, `causedKill`, `serialize`/`serializeLive` and
  `reconcileFromServer*` of the player entity, and `serialize`/`reconcile` of
  the drop entity, are left out. They forward to unseen collaborators or copy
  fields.
- These sources are not part of this model and are parameters or contracts:
  - entity.ts, including `Entity.addBuffer`/`readBuffer` and `EntityModelSchema`;
  - `LivePlayerModelSchema` and the other entity descriptors;
  - `PlayerWeaponEnumSchema`;
  - GameRules and WeaponConfigs, taken as the `Rules` record;
  - ArrayHash (the `Keyed` module);
  - RBushXOnly (a closed-range filter);
  - GameLeaderboard (the `scores` parameter);
  - EntityClusterer (the spawn counts per grouping).
- The core files do not all come from one revision, and this model reads
  them together as one program. playerEntity.ts:99-100 ends the weapon-drop
  switch with `unreachable(drop.weapon)`, which type-checks only if the
  weapon type lacks `laser1Spray10`, yet dropEntity.ts:98 creates a
  `laser1Spray10` drop. dropEntity.ts:10-12 imports a name the message file
  does not export and types its descriptor for a different schema library.
  The second finding below assumes the weapon type includes
  `laser1Spray10`. The third assumes the drop descriptor is written and read
  by arrayBufferSchema.ts.
- The message descriptor is written in an older dialect (`arraySize`,
  `typeLookup: true`, `enum: true`). Reading it as the codec's node kinds is
  an assumption of this model.
- Server.PlayerOf: a user holds its player's entity id and the model looks
  the player up in the entity list. The source's user holds the entity
  object itself (serverGame.ts:356), so `sendWorldState` and `userLeave`
  reach a player even after the end-of-tick pass removed it from the list.
  For such a user the source still sends the detached player's live model
  and still runs its `die()`; the model sends nothing and kills nothing. The
  state invariant does not promise that every user's player is listed, and
  the source does not keep that either. Spectators may also repeat, as
  `spectatorJoin` pushes without a check.
- Server.FinishTick: the leaderboard is sent when `tickIndex % 10 == 0`, but
  the scores it carries are a parameter.

## Findings

| source | as written | input that shows it | evidently intended | confidence | as-written member | corrected member |
|---|---|---|---|---|---|---|
| common/src/entities/dropEntity.ts:98-125 | laser drops carry amount x 1000 ammo, but the drop descriptor declares ammo `uint8` | a big meteor's laser2 drop with draw 0.9: 10000 ammo is written as 10000 mod 256. As written, the third finding makes the read fail first; once the variants carry tags it reads back as 16 | ammo wide enough for 10000 (uint16, as the live player codec uses for ammo) | not executed | DropProofs.BigLaserDropReadsSixteen | DropProofs.RandomDropsRoundTrip |
| common/src/entities/playerEntity.ts:444-451 | the weapon code table has laser1, laser2, rocket and torpedo only | an input with `weapon: 'laser1Spray10'` makes it the selected weapon (playerEntity.ts:125-127); the live write then has no code to emit | a code for every weapon | not executed; rests on `addSwitch` throwing on a missing key, which is not part of this model, and on the weapon type including `laser1Spray10`, which playerEntity.ts:100 does not agree with | PlayerCodecProofs.SpraySelectedByInput | PlayerCodecProofs.LiveRoundTripAll |
| common/src/entities/dropEntity.ts:122-138 | the drop union's variants carry no numeric `type` tag, which the union writer and reader look up (arrayBufferSchema.ts:121-123 and 51-58) | any drop value: the writer emits tag byte 0 (undefined) and the fields, and the reader reports tag 0, like every tag, as "schema not found" | variants tagged weapon/health/shield with distinct numbers | not executed; assumes the drop descriptor goes through arrayBufferSchema.ts, though dropEntity.ts:12 types it for another schema library | DropProofs.UntaggedWritesTagZero | DropProofs.TaggedRoundTrip |
