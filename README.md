# Da Tong Zi rules engine in Dafny

This project models the rules engine of the card game Da Tong Zi. The engine exists twice, as a Python package and as a Rust crate, and the model covers both where they differ.

- **Cards** (`cards.dfy`, `deck.dfy`). A card is a suit (Diamonds 1 … Spades 4) and a rank (Three 3 … Two 15; Python knows only Five … Two). The model covers:
  - score values;
  - the Python suit-first order and the Rust rank-first order;
  - the printed form of a card and its parser;
  - building and dealing a deck. The Python deck pops from a list; the Rust deck splits its vector.
- **Pattern recognizer** (`tally.dfy`, `ranks.dfy`, `patterns.dfy`, `recognizer*.dfy`). `analyze_cards` tries ten shapes in a fixed priority order and returns the first match:
  - the trumps Dizha, Tongzi and Bomb;
  - Airplane before AirplaneWithWings;
  - TripleWithTwo, Triple, ConsecutivePairs, Pair and Single.
  
  It looks only at rank tallies and (suit, rank) tallies, so permuting the cards never changes its verdict.
- **Play validator** (`validator.dfy`). `can_beat_play` applies the trump overrides, then requires the same type, the same chain length and a strictly greater strength.
- **Hand decomposer** (`hand_analyzer.dfy`, `hand_pattern_analyzer.dfy`, `sorting.dfy`). The Python and Rust `HandPatternAnalyzer` carve a hand greedily into eight buckets. Every kept group is checked by the recognizer, and the buckets together are exactly the hand.
- **Hand-search helpers**:
  - `PatternFinder` (`finders*.dfy`);
  - `PlayFormationValidator` (`formation.dfy`);
  - the Rust identical-play filter (`identical_play_filter.dfy`);
  - the Python and Rust play generators (`play_*.dfy`);
  - the Rust kicker knapsack (`kicker*.dfy`). Its depth-first search is a class whose push/pop selection and incumbent are fields.
- **Scoring ledger** (`scoring*.dfy`, `score_computation.dfy`). An append-only event list whose totals are sums.
- **Configuration** (`config*.dfy`). Game configuration arithmetic, the presets and the variant validators.
- **Round and turn state machine** (`game_rules.dfy`, `game_simulator.dfy`). The state machine of `GameSimulator`.
- **`PatternSuggester`** (`suggester_fixes.dfy`, `pattern_suggester.dfy`). Correction proposals for card lists read by a camera, the hand-legality check and the pattern-type guess.

Operations that loop or update state are methods. Each is proved equal to a function, and the lemmas about that function state what the source promises. Confidences are in tenths, and kicker costs are integers.

Both recognizers check Airplane before AirplaneWithWings (`src/datongzi_rules/patterns/recognizer.py:97-103`, `rust/datongzi-rules/src/patterns/recognizer.rs:58-66`), and so does the model.

Where the code departs from what its comments describe (the generic finish bonus, the wing cards of the airplane finders, the lead after a round), the model follows the code and proves the intended behaviour beside it; the table under "Findings" lists each case.

## Model

| member | source | states |
|---|---|---|
| Cards.ScoreValue | src/datongzi_rules/models/card.py:49-61 | a card is worth 0, 5 or 10; non-zero exactly for the scoring ranks Five, Ten and King, and 5 exactly for a Five |
| Cards.CardOrdersAreTotal | src/datongzi_rules/models/card.py:35-40 | the Python order (suit, then rank) and the Rust order (rank, then suit) are both strict total orders |
| Cards.CardOrdersDiverge | rust/datongzi-rules/src/models/card.rs:151-156 | the two orders agree on cards sharing a suit or a rank, and disagree otherwise (Diamonds Two against Spades Five) |
| Cards.CardToString | src/datongzi_rules/models/card.py:63-84 | the printed card is a suit symbol followed by a one- or two-character rank text |
| Cards.ParseSuit | src/datongzi_rules/models/card.py:101-110 | a suit character is accepted exactly when it is the symbol of that suit |
| Cards.ParseRank | src/datongzi_rules/models/card.py:112-129 | a rank text is accepted exactly when it is the printed text of a rank Five to Two |
| Cards.CardFromString | src/datongzi_rules/models/card.py:90-129 | parsing succeeds exactly on the printed form of some card, and the parsed card prints back to the input; shorter than two characters is an error |
| Cards.FromStringRoundTrip | src/datongzi_rules/models/card.py:63-129 | parsing the printed form of any card gives back the card |
| Cards.FromStringRejects | src/datongzi_rules/models/card.py:94-127 | ranks Three and Four, unknown rank texts, unknown suits and one-character strings are rejected with the matching error |
| Patterns.TypeValue | rust/datongzi-rules/src/patterns/pattern.rs:10-31 | each play type has a discriminant between 1 and 10 |
| Patterns.TypeValueInjective | rust/datongzi-rules/src/patterns/pattern.rs:10-31 | distinct play types have distinct discriminants |
| RankTallies.RanksFrom | src/datongzi_rules/patterns/recognizer.py:69 | the tally keys from a given rank up: exactly the ranks holding at least k cards, strictly increasing |
| RankTallies.ConsecutiveIsRange | src/datongzi_rules/patterns/recognizer.py:393-406 | `_are_consecutive` holds exactly for the empty list and the runs lo, lo+1, ..., lo+n-1 |
| RankTallies.ConsecutiveExamples | src/datongzi_rules/patterns/recognizer.py:393-406 | worked example of ConsecutiveIsRange: 3,4,5 is consecutive, 3,5 is not, and lists of at most one rank are |
| RankTallies.RankCountPermutation | src/datongzi_rules/patterns/recognizer.py:69 | the count of a rank depends only on the multiset of cards |
| RankTallies.SizeIsSumOverRanks | src/datongzi_rules/patterns/recognizer.py:69 | the counts of the tally keys add up to the number of cards |
| RankTallies.OneRank | src/datongzi_rules/patterns/recognizer.py:69 | the tally has a single key exactly when all cards share a rank, and that key holds all the cards |
| RankTallies.RunShapeRanks | src/datongzi_rules/patterns/recognizer.py:166-190 | under a run of n ranks with k cards each, the sorted keys are the run and there are k*n cards |
| RankTallies.RanksGiveRunShape | src/datongzi_rules/patterns/recognizer.py:166-190 | conversely, consecutive keys each holding k cards form such a run |
| Recognizer.CheckSingle | src/datongzi_rules/patterns/recognizer.py:130-145 | a match is a Single counting every card |
| Recognizer.CheckPair | src/datongzi_rules/patterns/recognizer.py:147-164 | a match is a Pair counting every card |
| Recognizer.CheckConsecutivePairs | src/datongzi_rules/patterns/recognizer.py:166-190 | a match is ConsecutivePairs counting every card |
| Recognizer.CheckTriple | src/datongzi_rules/patterns/recognizer.py:192-209 | a match is a Triple counting every card |
| Recognizer.CheckTripleWithTwo | src/datongzi_rules/patterns/recognizer.py:211-238 | a match is a TripleWithTwo counting every card |
| Recognizer.CheckAirplane | src/datongzi_rules/patterns/recognizer.py:240-264 | a match is an Airplane counting every card |
| Recognizer.WingsPattern | src/datongzi_rules/patterns/recognizer.py:266-317 | a match needs at least 8 cards and two triple candidates, and is an AirplaneWithWings counting every card |
| Recognizer.CheckAirplaneWithWings | src/datongzi_rules/patterns/recognizer.py:266-317 | a match has at least 8 cards and two ranks holding three or more, and counts every card |
| Recognizer.CheckBomb | src/datongzi_rules/patterns/recognizer.py:319-338 | a match is a Bomb |
| Recognizer.CheckTongzi | src/datongzi_rules/patterns/recognizer.py:340-362 | a match is a Tongzi counting every card |
| Recognizer.CheckDizha | src/datongzi_rules/patterns/recognizer.py:364-391 | a match is a Dizha counting every card |
| Recognizer.CheckFor | src/datongzi_rules/patterns/recognizer.py:81-127 | the check for a type only ever reports that type |
| Recognizer.AnalyzeCards | src/datongzi_rules/patterns/recognizer.py:52-128 | no cards are never a play |
| RecognizerProperties.CheckDizhaShape | src/datongzi_rules/patterns/recognizer.py:364-391 | the Dizha check matches exactly 8 cards of one rank with two of each suit, strength rank*100000 |
| RecognizerProperties.CheckTongziShape | src/datongzi_rules/patterns/recognizer.py:340-362 | the Tongzi check matches exactly three identical cards, strength rank*10000 + suit*1000 |
| RecognizerProperties.CheckBombShape | src/datongzi_rules/patterns/recognizer.py:319-338 | the Bomb check matches exactly four or more cards of one rank, strength rank*1000 + count |
| RecognizerProperties.CheckTripleShape | src/datongzi_rules/patterns/recognizer.py:192-209 | the Triple check matches exactly three cards of one rank |
| RecognizerProperties.CheckPairShape | src/datongzi_rules/patterns/recognizer.py:147-164 | the Pair check matches exactly two cards of one rank |
| RecognizerProperties.CheckConsecutivePairsIff | src/datongzi_rules/patterns/recognizer.py:166-190 | the ConsecutivePairs check matches exactly a run of at least two ranks holding two cards each and nothing else |
| RecognizerProperties.CheckAirplaneIff | src/datongzi_rules/patterns/recognizer.py:240-264 | the Airplane check matches exactly a run of at least two ranks holding three cards each and nothing else |
| RecognizerProperties.CheckConsecutivePairsValue | src/datongzi_rules/patterns/recognizer.py:177-190 | on such a run the pattern has the highest rank as primary, the run as secondary ranks, 2n cards and strength highest*1000 + n |
| RecognizerProperties.CheckAirplaneValue | src/datongzi_rules/patterns/recognizer.py:251-264 | on such a run the pattern has the highest rank as primary, the run as secondary ranks, 3n cards and strength highest*1000 + n |
| RecognizerProperties.FirstMatchFrom | src/datongzi_rules/patterns/recognizer.py:81-127 | a result of the check chain is the result of some check with every earlier check failing |
| RecognizerProperties.AnalyzeDecided | src/datongzi_rules/patterns/recognizer.py:52-128 | a recognised pattern is its own type's check result, and every check tried before that type fails |
| RecognizerProperties.FirstMatchNone | src/datongzi_rules/patterns/recognizer.py:52-128 | the cards are no play exactly when every check fails |
| RecognizerProperties.DizhaRecognised | src/datongzi_rules/patterns/recognizer.py:81-84 | Dizha exactly for 8 cards of one rank with two of each suit, with its pattern fields |
| RecognizerProperties.TongziRecognised | src/datongzi_rules/patterns/recognizer.py:85-88 | Tongzi exactly for three identical cards, with its pattern fields |
| RecognizerProperties.BombRecognised | src/datongzi_rules/patterns/recognizer.py:89-92 | Bomb exactly for four or more cards of one rank that are no Dizha, card count and strength from the size |
| RecognizerProperties.AirplanePattern | src/datongzi_rules/patterns/recognizer.py:97-100 | n >= 2 consecutive ranks with three cards each form an Airplane with the highest rank as primary |
| RecognizerProperties.AirplaneRecognised | src/datongzi_rules/patterns/recognizer.py:97-100 | Airplane exactly for such a run |
| RecognizerProperties.TripleWithTwoPattern | src/datongzi_rules/patterns/recognizer.py:106-109 | three cards of one rank and two of another form a TripleWithTwo whose primary rank is the triple's |
| RecognizerProperties.TripleWithTwoRecognised | src/datongzi_rules/patterns/recognizer.py:106-109 | TripleWithTwo exactly for that shape |
| RecognizerProperties.TripleRecognised | src/datongzi_rules/patterns/recognizer.py:110-113 | Triple exactly for three cards of one rank that are not all identical |
| RecognizerProperties.ConsecutivePairsPattern | src/datongzi_rules/patterns/recognizer.py:114-117 | n >= 2 consecutive ranks with two cards each form ConsecutivePairs with the highest rank as primary |
| RecognizerProperties.ConsecutivePairsRecognised | src/datongzi_rules/patterns/recognizer.py:114-117 | ConsecutivePairs exactly for such a run |
| RecognizerProperties.PairRecognised | src/datongzi_rules/patterns/recognizer.py:118-121 | Pair exactly for two cards of one rank |
| RecognizerProperties.SmallHandEarlyChecksFail | src/datongzi_rules/patterns/recognizer.py:81-117 | for one or two cards every check before Pair fails |
| RecognizerProperties.SingleRecognised | src/datongzi_rules/patterns/recognizer.py:122-125 | Single exactly for one card, with its rank, its suit and strength = rank |
| RecognizerProperties.CardCountIsSize | src/datongzi_rules/patterns/recognizer.py:52-128 | every recognised pattern counts all the cards it was given |
| RecognizerProperties.AnalyzePermutation | src/datongzi_rules/patterns/recognizer.py:52-128 | the recognizer depends only on the multiset of cards: permuting the input never changes the result |
| WingsProperties.SearchWingsFirst | src/datongzi_rules/patterns/recognizer.py:296-315 | the window search returns the first acceptable window of its scan (longest first, then leftmost) and finds one whenever one exists |
| WingsProperties.WindowIsRun | src/datongzi_rules/patterns/recognizer.py:296-307 | an accepted window of the sorted candidates is a wing run: consecutive ranks of three or more with between n and 2n other cards |
| WingsProperties.RunIsWindow | src/datongzi_rules/patterns/recognizer.py:296-307 | every wing run is an accepted window at the position of its lowest rank |
| WingsProperties.WingsResult | src/datongzi_rules/patterns/recognizer.py:308-314 | the reported pattern is an AirplaneWithWings over all the cards with the run as secondary ranks |
| WingsProperties.WingsPatternOfSearch | src/datongzi_rules/patterns/recognizer.py:277-317 | a pattern exactly when there are 8 cards, two candidates and an accepted window, and then that window's pattern |
| WingsProperties.SearchFindsRun | src/datongzi_rules/patterns/recognizer.py:277-317 | the search accepts a window exactly when the cards hold a wing run |
| WingsProperties.SearchGivesBest | src/datongzi_rules/patterns/recognizer.py:296-315 | the accepted window starts the best wing run (longest, then lowest) |
| WingsProperties.CheckAirplaneWithWingsIff | src/datongzi_rules/patterns/recognizer.py:266-317 | the wings check succeeds exactly when a wing run exists |
| WingsProperties.CheckAirplaneWithWingsBest | src/datongzi_rules/patterns/recognizer.py:266-317 | a successful wings check reports the best wing run, primary its highest rank, strength highest*1000 + length |
| WingsProperties.BestWingRunChosen | src/datongzi_rules/patterns/recognizer.py:266-317 | the best wing run determines the wings check's result |
| WingsProperties.WingRunNotOneRank | src/datongzi_rules/patterns/recognizer.py:81-92 | cards holding a wing run span two ranks, so the Dizha, Tongzi and Bomb checks fail |
| WingsProperties.AirplaneWithWingsHasRun | src/datongzi_rules/patterns/recognizer.py:97-105 | a recognised AirplaneWithWings holds a wing run and is no pure Airplane |
| WingsProperties.RunMakesAirplaneWithWings | src/datongzi_rules/patterns/recognizer.py:97-105 | cards holding a wing run that are no pure Airplane are recognised as AirplaneWithWings |
| WingsProperties.AirplaneWithWingsRecognised | src/datongzi_rules/patterns/recognizer.py:97-105 | AirplaneWithWings exactly when a wing run exists and the cards are no pure Airplane |
| WingsProperties.AirplaneWithWingsPattern | src/datongzi_rules/patterns/recognizer.py:97-105 | a recognised AirplaneWithWings reports the best wing run of the cards |
| Validator.LeadIsRecognised | src/datongzi_rules/patterns/recognizer.py:424-434 | leading a round accepts exactly the recognised plays; an unrecognised play never beats anything |
| Validator.DizhaOverrides | src/datongzi_rules/patterns/recognizer.py:447-454 | a Dizha beats every non-Dizha; a Dizha is beaten exactly by a higher-ranked Dizha |
| Validator.TongziOverrides | src/datongzi_rules/patterns/recognizer.py:456-475 | a Tongzi beats exactly the Bombs and the Tongzi of lower rank, or of equal rank and lower suit when both suits are known |
| Validator.OnlyTongziOrDizhaBeatsTongzi | src/datongzi_rules/patterns/recognizer.py:477-478 | whatever beats a Tongzi is a Tongzi or a Dizha |
| Validator.BombOverrides | src/datongzi_rules/patterns/recognizer.py:480-488 | a Bomb beats every non-trump; Bomb against Bomb wins by higher rank, or equal rank and more cards; it never beats a Tongzi or a Dizha |
| Validator.OnlyTrumpBeatsTrump | src/datongzi_rules/patterns/recognizer.py:446-491 | whatever beats a Bomb, Tongzi or Dizha is itself one of those |
| Validator.OrdinaryComparison | src/datongzi_rules/patterns/recognizer.py:493-509 | between non-trumps: a win exactly when the types agree, chains have the same length, and the strength is strictly greater |
| Validator.BeatIsAsymmetric | src/datongzi_rules/patterns/recognizer.py:437-509 | no pattern beats itself, and of two patterns at most one beats the other |
| Validator.BeatIsNotTransitive | src/datongzi_rules/patterns/recognizer.py:456-488 | the relation is not transitive: a Tongzi beats a Bomb and a Bomb beats a Pair, yet the Tongzi does not beat the Pair |
| Validator.PairBeatsPair | src/datongzi_rules/patterns/recognizer.py:429-509 | one pair beats another exactly when its rank is higher |
| Validator.SingleBeatsSingle | src/datongzi_rules/patterns/recognizer.py:429-509 | one single beats another exactly when its rank is higher; suits do not matter |
| Validator.PairRunBeatsPairRun | src/datongzi_rules/patterns/recognizer.py:497-509 | a run of pairs beats another exactly when it has the same length and a higher lowest rank |
| Validator.BombBeatsOrdinary | src/datongzi_rules/patterns/recognizer.py:480-482 | a Bomb that is not a Dizha beats every recognised non-trump play |
| Validator.DizhaBeatsRecognised | src/datongzi_rules/patterns/recognizer.py:447-451 | a Dizha beats a recognised play exactly when that play is no Dizha or has a lower rank |
| Decks.OnePackContents | src/datongzi_rules/models/card.py:152-156 | one pack holds every admitted card exactly once, 4 × (16 − lowest rank − excluded ranks) cards in all |
| Decks.ShoeContents | src/datongzi_rules/models/card.py:151-156 | n packs hold n copies of every admitted card and no other card |
| Decks.BuildSuit | rust/datongzi-rules/src/models/card.rs:183-202 | the inner loop appends the suit's non-excluded ranks in ascending order |
| Decks.BuildPack | src/datongzi_rules/models/card.py:153-156 | the suit loop yields the suits in enum order, each with its run of ranks |
| Decks.PyDeck.CreateStandard | src/datongzi_rules/models/card.py:138-163 | the deck is num_decks packs of the Python ranks Five..Two minus the excluded ranks; its size and each card's count follow |
| Decks.PyDeck.DealCard | src/datongzi_rules/models/card.py:172-178 | an empty deck is an error and unchanged; otherwise the last card is removed and returned |
| Decks.PyDeck.DealCards | src/datongzi_rules/models/card.py:180-192 | more cards than remain is an error; otherwise the last max(count, 0) cards are removed and returned last-first, and no card is lost |
| Decks.RsDeck.New | rust/datongzi-rules/src/models/card.rs:178-208 | the deck is num_decks packs of all thirteen ranks minus the excluded ones; size and per-card counts follow |
| Decks.RsDeck.DealCards | rust/datongzi-rules/src/models/card.rs:229-231 | the last count cards are split off in deck order and the deck shrinks by count; too large a count is an error |
| PyConfig.GenericFinishBonusAsWritten | src/datongzi_rules/models/config.py:45-48 | the generic resized list as written has one entry per player and gives first place 100 |
| PyConfig.GenericFinishBonus | src/datongzi_rules/models/config.py:45-48 | the intended generic list has one entry per player and gives first place 100 |
| PyConfig.ResizedFinishBonus | src/datongzi_rules/models/config.py:39-48 | the replacement list, as written (the generic list as written for counts other than 2 and 4), has one entry per player and gives first place 100 |
| PyConfig.NewGameConfig | src/datongzi_rules/models/config.py:31-48 | fewer than 2 players fails first, then fewer than 1 deck; otherwise every field is kept and the finish bonus has one entry per player, kept as given when its length already matches |
| PyConfig.CardsPerPlayer | src/datongzi_rules/models/config.py:56-60 | the share is the floor of the cards not set aside divided by the player count |
| PyConfig.ConstructionResizesBonus | src/datongzi_rules/models/config.py:39-48 | a list of the right length is kept; a resized list starts with 100: [100, -100] (sum 0) for two players, [100, -20, -40, -80] (sum -40) for four, otherwise the generic list as written, which sums to 100 mod (n - 1) |
| PyConfig.DefaultConfig | src/datongzi_rules/models/config.py:12-29 | the defaults keep [100, -40, -60] and give 132 cards in play, 41 per player |
| PyConfig.TotalCardsIsDeckSize | src/datongzi_rules/models/config.py:50-54 | the card total equals the size of the deck the deck builder makes for the same decks and excluded ranks |
| PyConfig.GenericFinishBonusAsWrittenSum | src/datongzi_rules/models/config.py:45-48 | the list as written sums to 100 mod (n - 1), so it is zero-sum exactly when n - 1 divides 100 |
| PyConfig.SevenPlayerBonusAsWrittenIsNotZeroSum | src/datongzi_rules/models/config.py:45-48 | with seven players the list as written sums to 4 |
| PyConfig.GenericFinishBonusZeroSum | src/datongzi_rules/models/config.py:45-48 | the intended list sums to zero for every player count from 2 |
| PyConfig.GenericFinishBonusAgreement | src/datongzi_rules/models/config.py:45-48 | the intended and the as-written lists coincide exactly when n - 1 divides 100 |
| RsConfig.Validate | rust/datongzi-rules/src/models/config.rs:129-148 | a configuration validates exactly when the deal fits in 52 cards per deck and there are 2 to 4 players; the card check is reported first |
| RsConfig.DefaultIsValid | rust/datongzi-rules/src/models/config.rs:26-40 | the default deals 132 of 156 cards and validates |
| RsConfig.MorePlayersNeedMoreCards | rust/datongzi-rules/src/models/config.rs:130-138 | a deal that does not fit still does not fit with one more player |
| PyConfigFactory.Standard3Deck3Player | src/datongzi_rules/variants/config_factory.py:22-49 | the preset passes construction and keeps the must-beat rule |
| PyConfigFactory.FourDeckFourPlayer | src/datongzi_rules/variants/config_factory.py:52-78 | the preset passes construction and keeps the must-beat rule |
| PyConfigFactory.TwoPlayer | src/datongzi_rules/variants/config_factory.py:81-107 | the preset passes construction and keeps the must-beat rule |
| PyConfigFactory.QuickGame | src/datongzi_rules/variants/config_factory.py:110-136 | the preset passes construction and keeps the must-beat rule |
| PyConfigFactory.HighStakes | src/datongzi_rules/variants/config_factory.py:139-164 | the preset passes construction and keeps the must-beat rule |
| PyConfigFactory.BeginnerFriendly | src/datongzi_rules/variants/config_factory.py:167-192 | the preset passes construction and drops the must-beat rule |
| PyConfigFactory.CreateCustom | src/datongzi_rules/variants/config_factory.py:195-243 | construction succeeds exactly with 2+ players and 1+ decks; every argument is stored, the finish bonus has one entry per player: the default for three players, the generic list as written for counts other than 2, 3 and 4 |
| PyConfigFactory.ValidateConfig | src/datongzi_rules/variants/config_factory.py:250-300 | the loop appends one warning per failed check, in order, and the configuration is valid exactly when there is none |
| PyConfigFactory.WarningsSpec | src/datongzi_rules/variants/config_factory.py:262-293 | each of the four warnings is reported exactly when its check fails, and no other warning appears |
| PyConfigFactory.ConstructedHasMatchingBonus | src/datongzi_rules/variants/config_factory.py:280-286 | a configuration that passed construction never gets the length warning |
| PyConfigFactory.PresetsAreValid | src/datongzi_rules/variants/config_factory.py:22-192 | every preset validates without warnings, and only the beginner preset drops the must-beat rule |
| PyConfigFactory.SevenPlayerCustomWarns | src/datongzi_rules/variants/config_factory.py:195-243 | a custom seven-player game gets [100, -16, -16, -16, -16, -16, -16] and the positive-sum warning for its sum 4 |
| PyConfigFactory.CustomBonusWarnings | src/datongzi_rules/variants/config_factory.py:195-243 | a custom game never gets the length warning, and gets the positive-sum warning exactly for player counts other than 2, 3 and 4 where n - 1 does not divide 100 |
| PyConfigFactory.CorrectedCustomBonusIsFair | src/datongzi_rules/models/config.py:45-48 | with the intended generic list in place of the one as written, no custom game gets either bonus warning |
| RsConfigFactory.DefaultFinishBonus | rust/datongzi-rules/src/variants/config_factory.rs:253-276 | the default list has one entry per player |
| RsConfigFactory.CalculateDefaultFinishBonus | rust/datongzi-rules/src/variants/config_factory.rs:253-276 | the loop builds exactly the default list |
| RsConfigFactory.DefaultFinishBonusIsZeroSum | rust/datongzi-rules/src/variants/config_factory.rs:249-276 | from two players the list starts with 100, sums to zero and equals the intended Python generic list |
| RsConfigFactory.CreateCustom | rust/datongzi-rules/src/variants/config_factory.rs:223-247 | every argument is stored unchanged with the default list, which has one entry per player and is zero-sum from two players |
| RsConfigFactory.ValidateConfig | rust/datongzi-rules/src/variants/config_factory.rs:304-352 | the method stops where the source panics, and otherwise returns the warnings and whether there are none |
| RsConfigFactory.WarningsSpec | rust/datongzi-rules/src/variants/config_factory.rs:306-347 | with 1+ players and no more cards aside than exist, each warning appears exactly when its check fails, at most four in all |
| RsConfigFactory.StandardPresetIsValid | rust/datongzi-rules/src/variants/config_factory.rs:31-150 | the standard preset validates cleanly and is zero-sum; the quick game (100 cards, three players) is reported as uneven |
| RsConfigFactory.FourPlayerDefaultBonus | rust/datongzi-rules/src/variants/config_factory.rs:260-272 | a custom four-player game gets [100, -34, -33, -33] |
| PatternFinder.TakeWholeChunks | src/datongzi_rules/patterns/finders.py:37-38 | the stepping loop copies the whole chunks of a rank's cards, dropping a final partial chunk |
| PatternFinder.FindPairs | src/datongzi_rules/patterns/finders.py:17-40 | the result is the chunk list whose properties PairsFoundAreThePairs states |
| PatternFinder.FindTriples | src/datongzi_rules/patterns/finders.py:43-65 | the result is the chunk list whose properties TriplesFoundAreTheTriples states |
| PatternFinder.AppendPrefixes | src/datongzi_rules/patterns/finders.py:91-92 | the loop appends the prefixes of lengths 4 up to the whole group |
| PatternFinder.FindBombs | src/datongzi_rules/patterns/finders.py:68-94 | the result is the bomb list whose members BombsFoundAreTheBombs characterises |
| PatternFinderProperties.PairsFoundAreThePairs | src/datongzi_rules/patterns/finders.py:26-40 | every two cards in a row of the result share a rank, ranks never decrease, each rank keeps all its cards but an odd last one, and every card comes from the hand |
| PatternFinderProperties.TriplesFoundAreTheTriples | src/datongzi_rules/patterns/finders.py:52-65 | the same with chunks of three: each rank keeps its count less the remainder modulo 3 |
| PatternFinderProperties.BombsFoundAreTheBombs | src/datongzi_rules/patterns/finders.py:80-94 | x is listed exactly when it is the first k ≥ 4 cards, in hand order, of a rank holding at least k |
| PatternFinderProperties.BombsFoundAreBombs | src/datongzi_rules/patterns/finders.py:86-94 | every listed bomb is at least four cards of one rank taken from the hand |
| ChainFinder.HeadsByRank | src/datongzi_rules/patterns/finders.py:108-120 | the map has a key exactly for the ranks with at least k cards, holding that rank's first k cards |
| ChainFinder.SortedHeads | src/datongzi_rules/patterns/finders.py:117-126 | the sorted keys are exactly the ranks holding k cards, ascending, one per map entry |
| ChainFinder.JoinHeads | src/datongzi_rules/patterns/finders.py:206-208 | the loop concatenates the first k cards of each listed rank, in list order |
| ChainFinder.FindConsecutivePairs | src/datongzi_rules/patterns/finders.py:97-155 | the result is empty exactly when no two consecutive ranks hold pairs; otherwise it is two cards of each rank of the longest such run |
| ChainFinder.LongestPairRun | src/datongzi_rules/patterns/finders.py:129-155 | the scan returns two cards per rank of the longest run of consecutive listed ranks, the first of equally long runs, or nothing when there is no run of two |
| ChainFinder.ScanRank | src/datongzi_rules/patterns/finders.py:132-148 | one step keeps the scan's invariant (the current run ends at this rank, the best is the first longest closed run of two or more ranks); the current run grows by this rank's pair when the rank steps by one and restarts with it otherwise, and a broken run of four or more cards longer than the best replaces it |
| ChainFinder.LongestRunUnique | src/datongzi_rules/patterns/finders.py:129-155 | the longest run is unique, so the result is determined by the hand |
| ChainFinder.LongestRunIsRun | src/datongzi_rules/patterns/finders.py:129-155 | the run found is a block of consecutive ranks each holding a pair |
| ChainFinder.FindAllRuns | src/datongzi_rules/patterns/finders.py:170-211 | the shared body of both window scans builds the list of all runs |
| ChainFinder.FindAllConsecutivePairs | src/datongzi_rules/patterns/finders.py:158-211 | the result is the run list AllRunsMembers characterises, with two cards a rank |
| ChainFinder.FindAllAirplanes | src/datongzi_rules/patterns/finders.py:372-423 | the result is the run list AllRunsMembers characterises, with three cards a rank |
| ChainFinder.AllRunsMembers | src/datongzi_rules/patterns/finders.py:193-211 | x is listed exactly when n ≥ 2 and x is k cards of each rank of some block lo..lo+n-1 whose ranks all hold k cards |
| ChainFinder.FindAirplane | src/datongzi_rules/patterns/finders.py:333-369 | None exactly when no two consecutive ranks hold triples; otherwise the triples of the lowest such pair of ranks |
| ComboFinder.CollectEntries | src/datongzi_rules/patterns/finders.py:271-277 | the loop builds both entry lists: each rank with at least three (two) cards and its first three (two) |
| ComboFinder.EntriesOfHand | src/datongzi_rules/patterns/finders.py:271-277 | an entry is listed exactly for a rank with at least k cards, holding its first k cards |
| ComboFinder.FindAllTripleWithTwo | src/datongzi_rules/patterns/finders.py:294-330 | the result is the combination list AllTripleWithTwoMembers characterises |
| ComboFinder.CombineAll | src/datongzi_rules/patterns/finders.py:325-328 | the outer loop concatenates each triple's row of combinations |
| ComboFinder.PairUp | src/datongzi_rules/patterns/finders.py:326-328 | the inner loop pairs the triple with every pair of another rank |
| ComboFinder.AllTripleWithTwoMembers | src/datongzi_rules/patterns/finders.py:311-330 | x is listed exactly when it is the first three cards of one rank followed by the first two of another |
| ComboFinder.FindTripleWithTwo | src/datongzi_rules/patterns/finders.py:252-291 | None exactly when the hand has no triple with a pair of another rank; otherwise the lowest triple with the lowest other pair |
| ComboFinder.FirstOtherRank | src/datongzi_rules/patterns/finders.py:287-289 | the scan stops at the first pair of another rank than the triple, or at the end |
| ComboFinder.FindAllTongzi | src/datongzi_rules/patterns/finders.py:214-249 | the result is the list TongziFound characterises |
| ComboFinder.SplitBySuit | src/datongzi_rules/patterns/finders.py:238-247 | grouping one rank by suit keeps the first three cards of each suit holding three |
| ComboFinder.TongziFound | src/datongzi_rules/patterns/finders.py:225-249 | x is listed exactly when it is three copies of a card the hand holds at least three times |
| WingFinder.CollectWings | src/datongzi_rules/patterns/finders.py:457-472 | the loop builds the offered wing pairs in key order: an airplane rank holding five or more cards offers its first two cards equal to no airplane card, another rank holding two offers its first two cards |
| WingFinder.NotInMultiset | src/datongzi_rules/patterns/finders.py:466 | the filtered list keeps no copy of a card equal to an airplane card and every copy of any other card |
| WingFinder.NotInMembers | src/datongzi_rules/patterns/finders.py:466 | every kept card is a card of the list equal to no airplane card |
| WingFinder.WingOfFacts | src/datongzi_rules/patterns/finders.py:457-472 | a rank offers at most one pair, two cards of that rank; outside the airplane exactly when the hand holds two, in the airplane exactly when it holds five and two of them equal no airplane card, which the pair is then made of |
| WingFinder.AsWrittenDropsCopies | src/datongzi_rules/patterns/finders.py:461-468 | with equal cards from two decks, the membership test drops the spare copies of an airplane rank, so five Fives offer no wing where two spare cards exist |
| WingFinder.WingOfMeaning | src/datongzi_rules/patterns/finders.py:458-472 | with the spare cards as intended, a rank offers at most one pair: two of its cards, when it holds five (an airplane rank) or two (any other rank) |
| WingFinder.TwoDeckHandOffersOneWing | src/datongzi_rules/patterns/finders.py:443-483 | for 5♠ 5♥ 5♦ 5♠ 5♥ 6♦ 6♣ 6♥ 7♠ 7♠ the airplane is 5♠ 5♥ 5♦ 6♦ 6♣ 6♥ and only the sevens are offered, so the finder returns None, while the spare fives would have been a second pair |
| WingFinder.FindAirplaneWithWings | src/datongzi_rules/patterns/finders.py:426-483 | None exactly when there is no airplane or fewer than two wing pairs for the lowest one; otherwise that airplane with its two lowest pairs |
| WingFinder.AddLowestWings | src/datongzi_rules/patterns/finders.py:443-483 | with fewer than two wing pairs the result is None, otherwise the airplane followed by the two lowest pairs |
| WingFinder.FirstPairs | src/datongzi_rules/patterns/finders.py:479-481 | the loop concatenates the first n offered pairs |
| WingFinder.AirplaneSize | src/datongzi_rules/patterns/finders.py:443-444 | an airplane of n ranks holds 3n cards |
| WingFinder.WingsEntries | src/datongzi_rules/patterns/finders.py:457-472 | every offered pair is the wing of its rank as the code selects it, and no rank offers two |
| WingFinder.LowestWithWingsFromHand | src/datongzi_rules/patterns/finders.py:426-483 | the play found has ten cards and uses no card more often than the hand holds it |
| WingFinder.FindAllAirplaneWithWings | src/datongzi_rules/patterns/finders.py:486-548 | the result is the list AllWithWingsFromHand bounds; a target not a multiple of 5 or below 10 gives nothing |
| WingFinder.WingEach | src/datongzi_rules/patterns/finders.py:514-546 | the loop over the airplanes concatenates each airplane's winged plays |
| WingFinder.WingsForAirplane | src/datongzi_rules/patterns/finders.py:516-546 | one airplane gets its wing pairs, and nothing when fewer than n are offered |
| WingFinder.AddEachChoice | src/datongzi_rules/patterns/finders.py:542-546 | the loop appends the airplane with each choice of wing pairs |
| WingFinder.JoinPairs | src/datongzi_rules/patterns/finders.py:544-545 | the loop concatenates the chosen pairs |
| WingFinder.CombinationsMembers | src/datongzi_rules/patterns/finders.py:542 | each choice has k entries from the list, of distinct ranks when the list's are |
| WingFinder.AllWithWingsFromHand | src/datongzi_rules/patterns/finders.py:486-548 | every listed play has exactly the target number of cards and uses no card more often than the hand holds it |
| FormationValidator.StepsFrom | python/src/datongzi_rules/patterns/validators.py:41-45 | the is_consecutive flag holds iff each rank of the window is one above the previous |
| FormationValidator.ScanWindows | python/src/datongzi_rules/patterns/validators.py:39-53 | true iff some window of n listed ranks is consecutive and its highest rank is above min_rank |
| FormationValidator.CanFormConsecutivePairs | python/src/datongzi_rules/patterns/validators.py:16-53 | true iff some run lo..lo+n-1 of ranks each holds a pair and lo+n-1 > min_rank |
| FormationValidator.CanFormAirplane | python/src/datongzi_rules/patterns/validators.py:55-90 | true iff some run of n ranks each holds a triple and its top rank is above min_rank |
| FormationValidator.CountSpares | python/src/datongzi_rules/patterns/validators.py:130-141 | available_pairs counts the hand ranks offering a wing pair (>= 5 cards in the body, >= 2 outside) |
| FormationValidator.SpareLoop | python/src/datongzi_rules/patterns/validators.py:132-141 | the counting loop returns the number of listed ranks offering a wing pair |
| FormationValidator.CanFormAirplaneWithWings | python/src/datongzi_rules/patterns/validators.py:92-146 | true iff some run of n triple ranks above min_rank leaves at least n wing pairs |
| FormationValidator.PairBeside | python/src/datongzi_rules/patterns/validators.py:172-182 | true iff another rank holds 2 cards or the triple's rank holds 5 |
| FormationValidator.ValidTriples | python/src/datongzi_rules/patterns/validators.py:161-166 | exactly the hand ranks holding 3 cards above min_rank |
| FormationValidator.CanFormTripleWithTwo | python/src/datongzi_rules/patterns/validators.py:148-184 | true iff some rank above min_rank holds 3 cards and a pair is left beside it |
| FormationValidator.Contiguous | python/src/datongzi_rules/patterns/validators.py:33-36 | in the sorted rank list, a run of present ranks occupies consecutive positions |
| FormationValidator.WindowsAreRuns | python/src/datongzi_rules/patterns/validators.py:39-51 | the window search over the sorted ranks succeeds exactly when a run of ranks holding k cards each exists above min_rank |
| FormationValidator.WingWindowsAreRuns | python/src/datongzi_rules/patterns/validators.py:115-144 | the same equivalence for the wings check, where the window's rank set is the run's span |
| GameRules.IndexOf | src/datongzi_rules/simulation/game_simulator.py:354 | the index returned is the first seat of the player |
| GameRules.NextIndexSpec | src/datongzi_rules/simulation/game_simulator.py:66-68 | the next seat is one on, wrapping from the last seat to the first |
| GameRules.ActivePlayersSpec | src/datongzi_rules/simulation/game_simulator.py:78-80 | a player is active exactly when seated and not finished |
| GameRules.ActiveCount | src/datongzi_rules/simulation/game_simulator.py:78-80 | with distinct seated players and distinct finishers, the active count is the seat count less the finisher count |
| GameRules.GameEndsSpec | src/datongzi_rules/simulation/game_simulator.py:372-375 | the game ends exactly when all players but at most one have finished, and then the round ends too |
| GameRules.NextActiveSpec | src/datongzi_rules/simulation/game_simulator.py:364-370 | the search returns the first unfinished seat going round from the start, skipping only finished players; a finished seat comes back only when everyone has finished, and then it is the start |
| GameRules.ActionOutcome | src/datongzi_rules/simulation/game_simulator.py:200-284 | after an action the last player who played is unchanged or is the acting player |
| GameRules.RemoveCardsSucceeds | src/datongzi_rules/simulation/game_simulator.py:255-258 | removing the played cards one by one succeeds exactly when the hand holds them all, and leaves the hand minus those cards |
| GameRules.RemoveCardsStops | src/datongzi_rules/simulation/game_simulator.py:255-258 | on a missing card the loop stops at it, after the cards before it have left the hand |
| GameRules.SkipOnlyLogs | src/datongzi_rules/simulation/game_simulator.py:211-223 | a player with no cards only adds a skip entry to the log |
| GameRules.PassCountsOnly | src/datongzi_rules/simulation/game_simulator.py:226-240 | a pass only counts one more consecutive pass and adds a pass entry to the log |
| GameRules.RejectedPlayChangesNothing | src/datongzi_rules/simulation/game_simulator.py:243-252 | an unrecognised play fails as an invalid pattern and a recognised one that does not beat the table as too weak, with the state unchanged |
| GameRules.ValidPlaySpec | src/datongzi_rules/simulation/game_simulator.py:255-283 | a play that beats the table and is in the hand leaves that hand without exactly those cards, leaves other hands alone, becomes the round's best play by this player, clears the passes, and adds the player to the finishers once the hand is empty |
| GameRules.MissingCardSpec | src/datongzi_rules/simulation/game_simulator.py:255-258 | a beating play not all in hand raises on the first missing card, after the cards before it left the hand; nothing else changes |
| GameRules.ActionWellformed | src/datongzi_rules/simulation/game_simulator.py:200-284 | an action by a seated player keeps the state well formed and adds at most that player, once, to the finishers |
| GameRules.PlayKeepsRoundOpen | src/datongzi_rules/simulation/game_simulator.py:286-298 | right after a play the pass count is zero, so the round goes on while two or more players are active |
| GameRules.MarkWinner | src/datongzi_rules/simulation/game_simulator.py:311-314 | the search keeps the number of log entries |
| GameRules.MarkWinnerSpec | src/datongzi_rules/simulation/game_simulator.py:311-314 | exactly the last entry with the final action number or the winner's id is flagged, and every other entry is unchanged |
| GameRules.NewRoundSpec | src/datongzi_rules/simulation/game_simulator.py:345-362 | a new round advances the round number and clears the table; the last player who played leads when still in the game, otherwise an unfinished player does; hands, finishers, logs and the ledger are untouched |
| GameRules.RoundAwardedCredit | src/datongzi_rules/simulation/game_simulator.py:300-343 | ending a round credits the last player who played with the round's base score plus the winning pattern's bonus, and no one else; with no last player nothing is recorded |
| GameRules.GameFinishedCredit | src/datongzi_rules/simulation/game_simulator.py:377-400 | ending the game gives each finisher the bonus of their place and marks the game over |
| GameRules.AfterActionWellformed | src/datongzi_rules/simulation/game_simulator.py:187-196 | the rest of the loop body keeps the state well formed |
| GameRules.TurnWellformed | src/datongzi_rules/simulation/game_simulator.py:167-196 | a whole turn keeps the state well formed |
| GameRules.ClosingPassAwards | src/datongzi_rules/simulation/game_simulator.py:300-360 | after a closing pass the round is awarded and the winner, still in the game, is seated to lead; the game goes on |
| GameRules.ClosingPassOutcome | src/datongzi_rules/simulation/game_simulator.py:226-240 | the closing pass leaves a well-formed state whose round is over |
| GameRules.WinnerDoesNotLead | src/datongzi_rules/simulation/game_simulator.py:187-196 | as written, the loop advances a seat after the new round seats the winner, so the winner of a round never leads the next one |
| GameRules.IntendedWinnerLeads | src/datongzi_rules/simulation/game_simulator.py:345-360 | with the intended loop body the winner of a round leads the next one |
| Simulation.GameState.constructor | src/datongzi_rules/simulation/game_simulator.py:42-60 | the state starts at round 1 with the given hands and seat, an empty table and no finishers |
| Simulation.GameState.AdvanceToNextPlayer | src/datongzi_rules/simulation/game_simulator.py:70-72 | the seat moves one on and nothing else changes |
| Simulation.GameSimulator.ExecutePlayerAction | src/datongzi_rules/simulation/game_simulator.py:200-284 | the new state and result are the action outcome whose cases the GameRules lemmas state |
| Simulation.GameSimulator.PlayValidCards | src/datongzi_rules/simulation/game_simulator.py:255-283 | the cards are removed one by one, then the play is recorded and a finish noted |
| Simulation.GameSimulator.RemovePlayedCards | src/datongzi_rules/simulation/game_simulator.py:255-258 | the loop removes cards until the first missing one and changes only that hand |
| Simulation.GameSimulator.CheckRoundEnd | src/datongzi_rules/simulation/game_simulator.py:286-298 | the round ends exactly when at most one player is active or all other active players have passed |
| Simulation.GameSimulator.CheckGameEnd | src/datongzi_rules/simulation/game_simulator.py:372-375 | the game ends exactly when at most one player is active |
| Simulation.GameSimulator.FindNextActivePlayer | src/datongzi_rules/simulation/game_simulator.py:364-370 | the loop returns the first unfinished seat after the start; a finished seat only when everyone has finished, and then the start |
| Simulation.GameSimulator.StartNewRound | src/datongzi_rules/simulation/game_simulator.py:345-362 | the state becomes the new-round state NewRoundSpec describes |
| Simulation.GameSimulator.MarkRoundWinner | src/datongzi_rules/simulation/game_simulator.py:311-314 | only the round logs change, flagged as MarkWinnerSpec states |
| Simulation.GameSimulator.EndRound | src/datongzi_rules/simulation/game_simulator.py:300-343 | the state and ledger become the awarded round RoundAwardedCredit describes |
| Simulation.GameSimulator.EndGame | src/datongzi_rules/simulation/game_simulator.py:377-400 | the finish bonuses are recorded and the game is over |
| Simulation.GameSimulator.PlayTurn | src/datongzi_rules/simulation/game_simulator.py:167-196 | one pass through the game loop, given the strategy's decision, yields the turn TurnWellformed and WinnerDoesNotLead speak about |
| Simulation.GameSimulator.FinishTurn | src/datongzi_rules/simulation/game_simulator.py:187-196 | after an action: end the round, end the game, or move one seat on |
| Simulation.MarkedLogs | src/datongzi_rules/simulation/game_simulator.py:311-314 | the backwards loop flags the entry MarkWinnerSpec names |
| Simulation.CollectRoundCards | src/datongzi_rules/simulation/game_simulator.py:319-321 | the loop concatenates the cards of every play of the round, in order |
| Simulation.GameSimulator.constructor | src/datongzi_rules/simulation/game_simulator.py:130-137 | the simulator holds the game state it is given; its shuffled deal and random first seat are inputs here |
| ScoringLedger.Recorded | src/datongzi_rules/scoring/engine.py:108-113 | an optional event adds at most one entry to the ledger |
| ScoringLedger.BaseScore | src/datongzi_rules/scoring/engine.py:53-77 | a round's base score lies between 0 and 10 per card |
| ScoringLedger.BaseScoreZero | src/datongzi_rules/scoring/engine.py:53-77 | a round is worth nothing exactly when none of its cards is a Five, Ten or King |
| ScoringLedger.ScoringCards | src/datongzi_rules/scoring/engine.py:98-100 | the scoring cards listed are exactly the round's Fives, Tens and Kings |
| ScoringLedger.RoundWinEvent | src/datongzi_rules/scoring/engine.py:79-114 | no event exactly when the cards hold no scoring card; otherwise one round-win event for the winner, worth the positive base score, naming the round and exactly the scoring cards |
| ScoringLedger.FinishEvents | src/datongzi_rules/scoring/engine.py:191-234 | one event per finisher whose place has a configured bonus |
| ScoringLedger.RoundWinCredit | src/datongzi_rules/scoring/engine.py:79-114 | winning a round credits the winner with the base score and leaves every other total unchanged |
| ScoringLedger.BaseScoreExamples | rust/datongzi-rules/src/scoring/computation.rs:367-396 | worked example of the card values: Five, Ten, King and Six are worth 25; Ten and King are worth 20 |
| ScoringLedger.PySpecialBonusSpec | src/datongzi_rules/scoring/engine.py:116-189 | only a round-winning play earns a special bonus, at most one, for the player who made it: a King, Ace or Two Tongzi earns its bonus when that is positive, a Dizha the Dizha bonus, nothing else anything |
| ScoringLedger.RsSpecialBonusSpec | rust/datongzi-rules/src/scoring/computation.rs:177-240 | Rust records a King, Ace or Two Tongzi whatever its bonus; otherwise as Python |
| ScoringLedger.SpecialBonusDivergence | rust/datongzi-rules/src/scoring/computation.rs:192-210 | with positive Tongzi bonuses both implementations record the same events; with a zero King bonus Rust records a zero-point event Python leaves out |
| ScoringLedger.FinishEventsSpec | src/datongzi_rules/scoring/engine.py:205-232 | the i-th event goes to the i-th finisher with the i-th bonus: first, second, then third place for every later position, with no round number |
| ScoringLedger.FinishBonusCredit | src/datongzi_rules/scoring/engine.py:205-232 | a player holding a single place with a configured bonus is credited exactly that bonus |
| ScoringLedger.FinishBonusNone | src/datongzi_rules/scoring/engine.py:205-232 | a player in no place with a configured bonus gets nothing from the finish events |
| ScoringLedger.FinishPointsTotal | src/datongzi_rules/scoring/engine.py:191-234 | the finish events hand out exactly the bonuses of the places filled, the whole list's sum when every place is filled |
| ScoringLedger.StaleScoresFail | src/datongzi_rules/scoring/engine.py:350-373 | a matching score stops matching once its player is credited a non-zero event |
| ScoringLedger.OtherPlayersKeepScores | src/datongzi_rules/scoring/engine.py:350-373 | events for players not listed never disturb a listed score |
| PyScoring.ScoringEngine.constructor | src/datongzi_rules/scoring/engine.py:48-51 | a new engine keeps its configuration and has an empty ledger |
| PyScoring.ScoringEngine.CalculateRoundBaseScore | src/datongzi_rules/scoring/engine.py:53-77 | the loop adds up the score values of the scoring cards; zero exactly when there is none |
| PyScoring.ScoringEngine.CreateRoundWinEvent | src/datongzi_rules/scoring/engine.py:79-114 | the event returned is the round-win event, appended to the ledger when there is one |
| PyScoring.ScoringEngine.CreateSpecialBonusEvents | src/datongzi_rules/scoring/engine.py:116-189 | the events returned are the Python special bonuses, appended to the ledger |
| PyScoring.ScoringEngine.CreateFinishBonusEvents | src/datongzi_rules/scoring/engine.py:191-234 | the finish events are returned and appended to the ledger |
| PyScoring.ScoringEngine.ValidateScores | src/datongzi_rules/scoring/engine.py:350-373 | valid exactly when every listed score equals that player's ledger total |
| RsScoring.ScoreComputation.constructor | rust/datongzi-rules/src/scoring/computation.rs:92-107 | a new ledger keeps its configuration and has no events |
| RsScoring.ScoreComputation.CreateRoundWinEvent | rust/datongzi-rules/src/scoring/computation.rs:128-175 | the event returned is the round-win event, pushed when there is one |
| RsScoring.ScoreComputation.CreateSpecialBonusEvents | rust/datongzi-rules/src/scoring/computation.rs:177-240 | the events returned are the Rust special bonuses, pushed to the ledger |
| RsScoring.ScoreComputation.CreateFinishBonusEvents | rust/datongzi-rules/src/scoring/computation.rs:242-282 | the finish events are returned and pushed |
| RsScoring.ScoreComputation.ValidateScores | rust/datongzi-rules/src/scoring/computation.rs:302-310 | valid exactly when every listed score equals that player's total |
| RsScoring.CompleteGameFlow | rust/datongzi-rules/tests/scoring_integration.rs:8-71 | the three-round game under the default configuration ends at 225, -20 and 340 over seven events |
| RsScoring.GameFlowLedger | rust/datongzi-rules/tests/scoring_integration.rs:8-71 | the same ledger built from the event functions gives those totals |
| RsScoring.CustomGameFinishIsZeroSum | rust/datongzi-rules/src/variants/config_factory.rs:223-276 | in a custom game every place has a bonus, so once all have finished the finish events hand out no net points |
| HandAnalysis.GroupBy | python/src/datongzi_rules/ai_helpers/hand_pattern_analyzer.py:262-264 | the grouping loop lists the keys in insertion order and maps each to the cards holding it, in hand order |
| HandAnalysis.RemoveAllSpec | python/src/datongzi_rules/ai_helpers/hand_pattern_analyzer.py:163-164 | removing cards that are all present, one copy each, takes away exactly those cards |
| HandAnalysis.TakeOut | python/src/datongzi_rules/ai_helpers/hand_pattern_analyzer.py:163-164 | the removal loop leaves the working list minus the group's cards |
| HandAnalysis.TakeGroups | python/src/datongzi_rules/ai_helpers/hand_pattern_analyzer.py:161-164 | the outer loop appends each found group to the bucket and takes its cards out |
| HandAnalysis.RunEnd | python/src/datongzi_rules/ai_helpers/hand_pattern_analyzer.py:359-366 | the inner scan stops at the first position whose rank does not step by one |
| HandAnalysis.DecomposePartition | python/src/datongzi_rules/ai_helpers/hand_pattern_analyzer.py:94-152 | the buckets partition the hand: every card lands in exactly one bucket as many times as the hand holds it, so the bucket sizes add up to the hand size |
| HandAnalysis.DecomposeRecognised | python/src/datongzi_rules/ai_helpers/hand_pattern_analyzer.py:285-287 | when the verdict is the recognizer's, every group of a bucket is recognised as that bucket's play type |
| HandAnalysis.DecomposePairsArePairs | python/src/datongzi_rules/ai_helpers/hand_pattern_analyzer.py:234-248 | every group of the pairs bucket is two cards of one rank, whatever the verdict |
| HandAnalysis.PairsDescending | python/src/datongzi_rules/ai_helpers/hand_pattern_analyzer.py:241-248 | visiting the ranks from the highest down lists the pairs in descending rank order |
| HandAnalysis.PairStageLeaves | python/src/datongzi_rules/ai_helpers/hand_pattern_analyzer.py:241-248 | after the pair stage a rank keeps one card when it had an odd number, none otherwise |
| HandAnalysis.DecomposeOrdered | python/src/datongzi_rules/ai_helpers/hand_pattern_analyzer.py:181-256 | each bucket comes out in the source's order (by rank, by suit then rank, or by size then rank, descending), and the singles hold at most one card per rank |
| HandAnalysis.DecomposeEmpty | python/src/datongzi_rules/ai_helpers/hand_pattern_analyzer.py:112-113 | an empty hand gives empty buckets |
| HandPatternAnalyzer.HandPatterns.constructor | python/src/datongzi_rules/ai_helpers/hand_pattern_analyzer.py:14-45 | a new record has empty buckets, no trumps and no control cards |
| HandPatternAnalyzer.HandPatterns.Fill | python/src/datongzi_rules/ai_helpers/hand_pattern_analyzer.py:137-142 | the record takes the buckets, and the trump count is the number of Dizha, Tongzi and Bomb groups |
| HandPatternAnalyzer.TwoOfEverySuit | python/src/datongzi_rules/ai_helpers/hand_pattern_analyzer.py:279 | the check holds exactly when every suit has two cards of the rank |
| HandPatternAnalyzer.DizhaCandidate | python/src/datongzi_rules/ai_helpers/hand_pattern_analyzer.py:267-282 | at least eight cards with two of every suit give the first two of each suit in the given suit order (Diamonds, Clubs, Hearts, Spades in Python; Spades, Hearts, Clubs, Diamonds in Rust); otherwise no candidate |
| HandAnalysis.DizhaOrderSameCards | rust/datongzi-rules/src/ai_helpers/hand_pattern_analyzer.rs:355-390 | the Rust suit order accepts the same ranks as the Python one and joins the same cards, in another order |
| HandPatternAnalyzer.KeepEntry | python/src/datongzi_rules/ai_helpers/hand_pattern_analyzer.py:285-287 | one entry's candidate is kept exactly when the verdict gives it the stage's type |
| HandPatternAnalyzer.FindKeyed | python/src/datongzi_rules/ai_helpers/hand_pattern_analyzer.py:260-342 | the Dizha, Tongzi, Bomb and triple finders return the groups of the keyed stage |
| HandPatternAnalyzer.RunFrom | python/src/datongzi_rules/ai_helpers/hand_pattern_analyzer.py:361-366 | the inner loop extends the run while the next rank is one higher |
| HandPatternAnalyzer.FindChains | python/src/datongzi_rules/ai_helpers/hand_pattern_analyzer.py:345-425 | the chain finders return the maximal runs of two or more ranks the verdict accepts, skipping past each accepted run |
| HandPatternAnalyzer.ExtractTrumpCards | python/src/datongzi_rules/ai_helpers/hand_pattern_analyzer.py:155-185 | Dizha, then Tongzi, then Bombs are found on what the previous stage left, taken out, and each list sorted in its order |
| HandPatternAnalyzer.ExtractAirplaneChains | python/src/datongzi_rules/ai_helpers/hand_pattern_analyzer.py:188-201 | the chains are taken out and sorted by size, then rank, descending |
| HandPatternAnalyzer.ExtractTriples | python/src/datongzi_rules/ai_helpers/hand_pattern_analyzer.py:204-213 | the triples are taken out and sorted by rank, descending |
| HandPatternAnalyzer.ExtractConsecutivePairChains | python/src/datongzi_rules/ai_helpers/hand_pattern_analyzer.py:216-231 | the pair chains are taken out and sorted by size, then rank, descending |
| HandPatternAnalyzer.TakePairs | python/src/datongzi_rules/ai_helpers/hand_pattern_analyzer.py:243-248 | pairs are cut from the front of one rank's cards and taken out of the working list |
| HandPatternAnalyzer.ExtractPairs | python/src/datongzi_rules/ai_helpers/hand_pattern_analyzer.py:234-248 | every rank, highest first, gives up its pairs, which are taken out |
| HandPatternAnalyzer.ExtractSingles | python/src/datongzi_rules/ai_helpers/hand_pattern_analyzer.py:251-257 | the rest becomes the singles, sorted by rank descending, and the working list is emptied |
| HandPatternAnalyzer.ExtractAll | python/src/datongzi_rules/ai_helpers/hand_pattern_analyzer.py:115-134 | the six steps in order compute the decomposition whose partition, recognition and order lemmas hold |
| HandPatternAnalyzer.AnalyzePatterns | python/src/datongzi_rules/ai_helpers/hand_pattern_analyzer.py:94-152 | the record holds that decomposition, the hand size, the trump count, and whether the hand holds a King, Ace or Two |
| IdenticalPlayFilter.DetectTongzi | rust/datongzi-rules/src/ai_helpers/identical_play_filter.rs:28-59 | the loops build exactly the list whose members TongziListMembers gives |
| IdenticalPlayFilter.TongziListMembers | rust/datongzi-rules/src/ai_helpers/identical_play_filter.rs:28-59 | (suit, rank) is listed exactly when the rank is Five or above and the hand holds three or more copies of that card |
| IdenticalPlayFilter.DetectDizha | rust/datongzi-rules/src/ai_helpers/identical_play_filter.rs:70-105 | the loops build exactly the list whose members DizhaListMembers gives |
| IdenticalPlayFilter.DizhaListMembers | rust/datongzi-rules/src/ai_helpers/identical_play_filter.rs:70-105 | a rank is listed exactly when it is Five or above and every suit holds two cards of it |
| IdenticalPlayFilter.GetProtectedSuits | rust/datongzi-rules/src/ai_helpers/identical_play_filter.rs:117-145 | a suit is protected exactly when it holds a Tongzi of the rank, or when the rank is a Dizha |
| IdenticalPlayFilter.SelectSafeSuit | rust/datongzi-rules/src/ai_helpers/identical_play_filter.rs:158-176 | the scan returns the safe suit SafeSuitMeaning describes |
| IdenticalPlayFilter.SafeSuitMeaning | rust/datongzi-rules/src/ai_helpers/identical_play_filter.rs:158-176 | no suit exactly when the hand holds no card of the rank; otherwise the suit of the first unprotected card of the rank in hand order, or of its first card when all are protected, and that card is in the hand |
| IdenticalPlayFilter.FilterSingles | rust/datongzi-rules/src/ai_helpers/identical_play_filter.rs:187-212 | the loop builds one single for each rank of the hand |
| IdenticalPlayFilter.SinglesOnePerRank | rust/datongzi-rules/src/ai_helpers/identical_play_filter.rs:187-212 | exactly one single per rank of the hand, ranks ascending, each a card of the hand |
| IdenticalPlayFilter.SelectFill | rust/datongzi-rules/src/ai_helpers/identical_play_filter.rs:404-432 | the three passes over one rank's cards choose the cards PickFillFacts describes |
| IdenticalPlayFilter.PickFillFacts | rust/datongzi-rules/src/ai_helpers/identical_play_filter.rs:404-432 | two or more cards of one rank always give two of them |
| IdenticalPlayFilter.FilterRankGroups | rust/datongzi-rules/src/ai_helpers/identical_play_filter.rs:223-281 | the shared body of the pair and triple filters returns the kept plays |
| IdenticalPlayFilter.FilterPairs | rust/datongzi-rules/src/ai_helpers/identical_play_filter.rs:223-281 | the result is the kept pairs KeptPlaysSound and KeptPlaysComplete describe |
| IdenticalPlayFilter.FilterTriples | rust/datongzi-rules/src/ai_helpers/identical_play_filter.rs:292-350 | the result is the kept triples KeptPlaysSound and KeptPlaysComplete describe |
| IdenticalPlayFilter.PickIsPlay | rust/datongzi-rules/src/ai_helpers/identical_play_filter.rs:250-278 | a play picked for a rank, when complete, is k cards of the hand of that rank |
| IdenticalPlayFilter.KeptPlaysSound | rust/datongzi-rules/src/ai_helpers/identical_play_filter.rs:223-350 | every kept play is k cards of the hand of one rank from Five up, and the ranks strictly ascend, so no rank is kept twice |
| IdenticalPlayFilter.KeptPlaysComplete | rust/datongzi-rules/src/ai_helpers/identical_play_filter.rs:223-350 | a rank from Five up whose cards show k different suits always gets a play |
| IdenticalPlayFilter.IsConsecutiveRanks | rust/datongzi-rules/src/ai_helpers/identical_play_filter.rs:446-457 | true exactly when there are two or more ranks, each one above the previous |
| IdenticalPlayFilter.FilterConsecutivePairs | rust/datongzi-rules/src/ai_helpers/identical_play_filter.rs:362-443 | the scan over lengths and windows returns the plays ConsecutivePairPlaysMembers describes |
| IdenticalPlayFilter.PairRunsMembers | rust/datongzi-rules/src/ai_helpers/identical_play_filter.rs:383-396 | a (first rank, length) key is examined exactly when it spans two or more consecutive ranks all holding pairs |
| IdenticalPlayFilter.ConsecutivePairPlaysMembers | rust/datongzi-rules/src/ai_helpers/identical_play_filter.rs:362-443 | x is returned exactly when it is the play chosen for such a run |
| IdenticalPlayFilter.PairRunPlay | rust/datongzi-rules/src/ai_helpers/identical_play_filter.rs:400-437 | the play chosen for a run is two cards of each of its ranks, lowest first, all cards of the hand |
| PlayCombinations.WithHead | src/datongzi_rules/ai_helpers/play_generator.py:108 | every listed combination, same count, with the first element in front |
| PlayCombinations.Combinations | rust/datongzi-rules/src/ai_helpers/play_generator.rs:668-690 | choosing nothing gives one empty combination and choosing more elements than the list holds gives none |
| PlayCombinations.CombinationIsSubseq | rust/datongzi-rules/src/ai_helpers/play_generator.rs:668-690 | every combination picks exactly k elements of the list, keeping their order |
| PlayCombinations.SubseqIsCombination | src/datongzi_rules/ai_helpers/play_generator.py:108 | conversely every in-order pick of k elements is listed, so the enumeration misses nothing |
| PlayCombinations.CombinationsCount | rust/datongzi-rules/src/ai_helpers/play_generator.rs:618-640 | the enumeration lists exactly Binomial(n, k) combinations |
| PlayCombinations.SubseqLength | rust/datongzi-rules/src/ai_helpers/play_generator.rs:668-690 | an in-order pick is no longer than the list it is drawn from |
| PlayCombinations.SubseqWithin | src/datongzi_rules/ai_helpers/play_generator.py:108 | a pick takes no card more often than the group holds it |
| PlayCombinations.SubseqNoDup | rust/datongzi-rules/src/ai_helpers/play_generator.rs:618-640 | a pick of distinct ranks holds distinct ranks, all of them from the list |
| PlayCombinations.KeepMembers | src/datongzi_rules/ai_helpers/play_generator.py:108-112 | a candidate is kept exactly when the recognizer gives it the generator's type |
| PlayCombinations.KeepAppend | src/datongzi_rules/ai_helpers/play_generator.py:105-112 | filtering two candidate lists one after the other equals filtering their concatenation |
| PlayCombinations.KeepOfType | src/datongzi_rules/ai_helpers/play_generator.py:108-112 | the append loop returns the candidates of the wanted type in candidate order |
| GroupGenerators.BombSizesMembers | src/datongzi_rules/ai_helpers/play_generator.py:272-277 | the size loop yields exactly the in-order picks of 4 or more cards of the group that are recognised as bombs |
| GroupGenerators.PerGroupMembers | src/datongzi_rules/ai_helpers/play_generator.py:100-114 | a group yields exactly the recognised picks of its kind's size (any size from 4 for bombs, two of each suit for dizha) |
| GroupGenerators.GroupPlaysMembers | src/datongzi_rules/ai_helpers/play_generator.py:335-342 | a play is listed exactly when one dictionary entry's group yields it |
| GroupGenerators.GeneratedFromWithin | src/datongzi_rules/ai_helpers/play_generator.py:306-332 | a play a group yields, including a dizha joined suit by suit, is drawn from that group |
| GroupGenerators.GeneratedSound | src/datongzi_rules/ai_helpers/play_generator.py:100-158 | every play of the per-group generators has the generator's type and is drawn from the hand |
| GroupGenerators.GeneratedComplete | src/datongzi_rules/ai_helpers/play_generator.py:264-279 | every recognised pick of a group is generated, so no pair, triple, bomb or tongzi of the hand is missed |
| GroupGenerators.BombsOfGroup | src/datongzi_rules/ai_helpers/play_generator.py:272-277 | the size loop returns the recognised bombs of every size from 4 to the group size, smallest first |
| GroupGenerators.DizhaOfGroup | src/datongzi_rules/ai_helpers/play_generator.py:311-330 | a rank group of 8 or more cards gives one dizha, two of each suit in the given suit order, when every suit holds two and the recognizer agrees; otherwise nothing |
| GroupGenerators.PerGroupPlays | src/datongzi_rules/ai_helpers/play_generator.py:105-113 | the inner loops return what the group yields, in combination order |
| GroupGenerators.GenerateFromGroups | src/datongzi_rules/ai_helpers/play_generator.py:335-342 | the generator walks the dictionary in first-occurrence order and concatenates every group's plays |
| GroupGenerators.GeneratePairs | src/datongzi_rules/ai_helpers/play_generator.py:100-114 | the pairs of every rank group, in dictionary order |
| GroupGenerators.GenerateTriples | src/datongzi_rules/ai_helpers/play_generator.py:144-158 | the triples of every rank group, in dictionary order |
| GroupGenerators.GenerateTongzi | src/datongzi_rules/ai_helpers/play_generator.py:282-303 | the tongzi of every (suit, rank) group, in dictionary order |
| GroupGenerators.GenerateBombs | src/datongzi_rules/ai_helpers/play_generator.py:264-279 | the bombs of every rank group, in dictionary order |
| GroupGenerators.GenerateDizha | rust/datongzi-rules/src/ai_helpers/play_generator.rs:727-760 | the dizha of every rank group, joining the suits in the order the language's generator uses |
| ChainGenerators.SoundAppend | src/datongzi_rules/ai_helpers/play_generator.py:126-141 | joining two lists of recognised plays drawn from the hand keeps that property |
| ChainGenerators.WithoutMultiset | src/datongzi_rules/ai_helpers/play_generator.py:243 | removing the body's cards drops every copy of each body card and keeps every other card |
| ChainGenerators.PairRanksFacts | src/datongzi_rules/ai_helpers/play_generator.py:246 | the wing ranks are distinct dictionary keys whose remaining group holds two cards |
| ChainGenerators.WingWithin | src/datongzi_rules/ai_helpers/play_generator.py:239-256 | an airplane body with its wings takes no card more often than the hand holds it |
| ChainGenerators.WingCombosWithin | src/datongzi_rules/ai_helpers/play_generator.py:251-256 | every wing combination drawn over the pair ranks stays within the hand |
| ChainGenerators.CandidatesWithin | src/datongzi_rules/ai_helpers/play_generator.py:205-256 | every candidate of one window stays within the hand |
| ChainGenerators.WindowSound | src/datongzi_rules/ai_helpers/play_generator.py:205-218 | what one window yields is of the generator's type and drawn from the hand |
| ChainGenerators.WindowsSound | src/datongzi_rules/ai_helpers/play_generator.py:205 | every window of one length yields only sound plays |
| ChainGenerators.LengthsSound | src/datongzi_rules/ai_helpers/play_generator.py:204 | every length of the scan yields only sound plays |
| ChainGenerators.ChainPlaysSound | src/datongzi_rules/ai_helpers/play_generator.py:117-261 | every consecutive pair, airplane and airplane with wings generated has its type and is drawn from the hand |
| ChainGenerators.ConsecutiveSteps | src/datongzi_rules/ai_helpers/play_generator.py:345-354 | the consecutiveness test holds exactly when each rank is one above the one before |
| ChainGenerators.IsConsecutive | src/datongzi_rules/ai_helpers/play_generator.py:345-354 | true exactly when the ranks are empty or form one run of rank values counting up by one |
| ChainGenerators.JoinGroups | src/datongzi_rules/ai_helpers/play_generator.py:133-135 | the body is the first n cards of each rank's group, rank after rank |
| ChainGenerators.RemainingCards | src/datongzi_rules/ai_helpers/play_generator.py:243 | the remaining cards are the hand's cards equal to no body card, in hand order |
| ChainGenerators.PairRanksOf | src/datongzi_rules/ai_helpers/play_generator.py:246 | the listed ranks whose remaining group holds two cards, in dictionary order |
| ChainGenerators.WingsOfWindow | src/datongzi_rules/ai_helpers/play_generator.py:242-259 | the recognised airplanes with wings over one body, one per choice of as many pair ranks as the body has ranks |
| ChainGenerators.ScanWindow | src/datongzi_rules/ai_helpers/play_generator.py:206-218 | one window yields its candidates of the generator's type, and nothing unless its ranks are consecutive |
| ChainGenerators.ScanLength | src/datongzi_rules/ai_helpers/play_generator.py:205 | all windows of one length, left to right |
| ChainGenerators.ScanLengths | src/datongzi_rules/ai_helpers/play_generator.py:204 | all lengths from 2 up, shortest first |
| ChainGenerators.GenerateChains | src/datongzi_rules/ai_helpers/play_generator.py:117-141 | the whole generator: sort the ranks holding enough cards and scan every window, shortest first |
| PyPlayGenerator.Singles | src/datongzi_rules/ai_helpers/play_generator.py:38 | one single per card of the hand, in hand order |
| PyPlayGenerator.TwtRowSound | src/datongzi_rules/ai_helpers/play_generator.py:177-190 | every play of one triple rank's row is built from that triple rank and a listed pair rank |
| PyPlayGenerator.TwtPlaysSound | src/datongzi_rules/ai_helpers/play_generator.py:174-190 | every play pairs a listed triple rank with a listed pair rank |
| PyPlayGenerator.TwtCandidateWithin | src/datongzi_rules/ai_helpers/play_generator.py:175-187 | a triple-with-two candidate takes no card more often than the hand holds it |
| PyPlayGenerator.TripleWithTwoSound | src/datongzi_rules/ai_helpers/play_generator.py:161-192 | every play is a recognised TripleWithTwo drawn from the hand and built from a triple rank and a pair rank |
| PyPlayGenerator.SameRankCandidateRejected | src/datongzi_rules/ai_helpers/play_generator.py:178-182 | the five-of-one-rank candidate is never a TripleWithTwo |
| PyPlayGenerator.SameRankNeverKept | src/datongzi_rules/ai_helpers/play_generator.py:171-190 | so every play joins the first three cards of one rank with the first two of a different rank |
| PyPlayGenerator.TripleRanksOf | src/datongzi_rules/ai_helpers/play_generator.py:167 | the ranks holding three cards, in dictionary order |
| PyPlayGenerator.PairRanksOf | src/datongzi_rules/ai_helpers/play_generator.py:170-172 | the other ranks holding two cards, then the triple ranks holding five |
| PyPlayGenerator.TwtRowOf | src/datongzi_rules/ai_helpers/play_generator.py:177-190 | one triple rank's candidates, one per pair rank, kept when recognised |
| PyPlayGenerator.GenerateTripleWithTwo | src/datongzi_rules/ai_helpers/play_generator.py:161-192 | every triple rank crossed with every pair rank, triple rank first |
| PyPlayGenerator.GenerateAllPlays | src/datongzi_rules/ai_helpers/play_generator.py:22-69 | the singles, then every generator's plays in the source's order |
| PyPlayGenerator.SoundIsMultiCard | src/datongzi_rules/ai_helpers/play_generator.py:40-66 | plays of a type other than Single that are drawn from the hand belong after the singles |
| PyPlayGenerator.GeneratedMultiCard | src/datongzi_rules/ai_helpers/play_generator.py:40-66 | the per-group generators give only plays of more than one card, drawn from the hand |
| PyPlayGenerator.TripleWithTwoMultiCard | src/datongzi_rules/ai_helpers/play_generator.py:49 | so does the triple-with-two generator |
| PyPlayGenerator.ChainMultiCard | src/datongzi_rules/ai_helpers/play_generator.py:43-55 | so do the chain generators |
| PyPlayGenerator.MultiCardPlaysSound | src/datongzi_rules/ai_helpers/play_generator.py:40-66 | every play after the singles is drawn from the hand and is not a Single |
| PyPlayGenerator.AllPlaysStartWithSingles | src/datongzi_rules/ai_helpers/play_generator.py:32-38 | an empty hand has no play; otherwise the list opens with one single per card, in hand order |
| PyPlayGenerator.SinglesThenOthers | src/datongzi_rules/ai_helpers/play_generator.py:38-66 | singles followed by other plays drawn from the hand are all valid, and none after the singles is a Single |
| PyPlayGenerator.AllPlaysWithinHand | src/datongzi_rules/ai_helpers/play_generator.py:22-69 | no generated play takes a card more often than the hand holds it |
| PyPlayGenerator.AllPlaysRecognised | src/datongzi_rules/ai_helpers/play_generator.py:22-69 | every generated play is a valid play, and only the leading singles are Singles |
| PyPlayGenerator.ResponsesMembers | src/datongzi_rules/ai_helpers/play_generator.py:87-90 | a play is a response exactly when it is listed and beats the current pattern |
| PyPlayGenerator.BeatingPlays | src/datongzi_rules/ai_helpers/play_generator.py:87-90 | the listed plays that beat the current pattern, in list order |
| PyPlayGenerator.GenerateValidResponses | src/datongzi_rules/ai_helpers/play_generator.py:72-97 | the generated plays that beat the current pattern |
| PyPlayGenerator.ValidResponsesSound | src/datongzi_rules/ai_helpers/play_generator.py:72-97 | a play is a response exactly when it is generated and beats the pattern; each is valid and drawn from the hand; every card that beats the pattern alone is offered |
| RustPlayGenerator.AnalysesRecognises | rust/datongzi-rules/src/ai_helpers/play_generator.rs:441-492 | the type test built on the real recognizer agrees with the recognizer |
| RustPlayGenerator.RecognizedTriplesHaveThree | rust/datongzi-rules/src/ai_helpers/play_generator.rs:441-492 | the recognizer never calls four or five cards a Triple |
| RustPlayGenerator.OneKickerEmpty | rust/datongzi-rules/src/ai_helpers/play_generator.rs:464-473 | the single-kicker loop keeps nothing |
| RustPlayGenerator.PairRowEmpty | rust/datongzi-rules/src/ai_helpers/play_generator.rs:477-487 | one row of the two-kicker loop keeps nothing |
| RustPlayGenerator.PairRowsEmpty | rust/datongzi-rules/src/ai_helpers/play_generator.rs:476-488 | the whole two-kicker loop keeps nothing |
| RustPlayGenerator.KickerPlaysEmpty | rust/datongzi-rules/src/ai_helpers/play_generator.rs:452-490 | no triple rank yields a kicked triple |
| RustPlayGenerator.TripleWithKickersEmpty | rust/datongzi-rules/src/ai_helpers/play_generator.rs:441-492 | the generator asks for a Triple of four or five cards, which the recognizer never gives, so it returns nothing for any hand |
| RustPlayGenerator.KickersOfTriple | rust/datongzi-rules/src/ai_helpers/play_generator.rs:464-488 | the one-kicker candidates, then the two-kicker rows, each kept on the recognizer's verdict |
| RustPlayGenerator.GenerateTripleWithKickers | rust/datongzi-rules/src/ai_helpers/play_generator.rs:441-492 | every triple rank's kicked triples, in dictionary order |
| RustPlayGenerator.GenerateAllPlays | rust/datongzi-rules/src/ai_helpers/play_generator.rs:74-134 | the filtered singles, pairs, consecutive pairs and triples, then the unfiltered generators, or an error past the limit |
| RustPlayGenerator.SinglesLead | rust/datongzi-rules/src/ai_helpers/play_generator.rs:93-94 | the collection opens with one single of the hand per rank, ranks ascending |
| RustPlayGenerator.AllPlaysLimit | rust/datongzi-rules/src/ai_helpers/play_generator.rs:74-134 | an empty hand gives Ok of nothing; the result is an error exactly when more plays than the limit were collected, and otherwise the whole collection; a limit below the number of ranks always errs |
| RustPlayGenerator.CountAllPlays | rust/datongzi-rules/src/ai_helpers/play_generator.rs:280-320 | zero for an empty hand, otherwise one per card plus the sizes of every unfiltered generator's list |
| RustPlayGenerator.PlayCountFacts | rust/datongzi-rules/src/ai_helpers/play_generator.rs:280-320 | the count is zero exactly for an empty hand and at least one per card, it counts every generated pair besides the singles, and the kicked triples add nothing |
| RustPlayGenerator.SelectMembers | rust/datongzi-rules/src/ai_helpers/play_generator.rs:780-905 | a higher-play helper keeps exactly the generated plays that pass its rank or size rule |
| RustPlayGenerator.SelectPlays | rust/datongzi-rules/src/ai_helpers/play_generator.rs:780-905 | the filter loop returns the passing plays in generation order |
| RustPlayGenerator.HigherSinglesMembers | rust/datongzi-rules/src/ai_helpers/play_generator.rs:766-778 | the higher singles are exactly the cards of the hand ranked above the current play |
| RustPlayGenerator.GenerateHigherSingles | rust/datongzi-rules/src/ai_helpers/play_generator.rs:766-778 | the loop returns them in hand order |
| RustPlayGenerator.GenerateSameTypeCandidates | rust/datongzi-rules/src/ai_helpers/play_generator.rs:185-214 | the higher plays of the current type, nothing for a trump or a triple with two |
| RustPlayGenerator.GenerateTrumpCandidates | rust/datongzi-rules/src/ai_helpers/play_generator.rs:216-242 | every bomb, tongzi and dizha against an ordinary play; the trump hierarchy's candidates against a trump |
| RustPlayGenerator.GenerateBeatingPlays | rust/datongzi-rules/src/ai_helpers/play_generator.rs:171-250 | nothing for an empty hand, otherwise the candidates of both steps that can beat the current play |
| RustPlayGenerator.GeneratedDrawn | rust/datongzi-rules/src/ai_helpers/play_generator.rs:642-760 | the per-group generators draw every play from the hand |
| RustPlayGenerator.ChainDrawn | rust/datongzi-rules/src/ai_helpers/play_generator.rs:374-593 | so do the chain generators |
| RustPlayGenerator.SelectDrawn | rust/datongzi-rules/src/ai_helpers/play_generator.rs:780-905 | filtering keeps plays drawn from the hand |
| RustPlayGenerator.ResponsesDrawn | rust/datongzi-rules/src/ai_helpers/play_generator.rs:245-248 | the final validation filter keeps plays drawn from the hand |
| RustPlayGenerator.HigherSinglesDrawn | rust/datongzi-rules/src/ai_helpers/play_generator.rs:766-778 | every higher single is a card of the hand |
| RustPlayGenerator.SameTypeCandidatesDrawn | rust/datongzi-rules/src/ai_helpers/play_generator.rs:185-214 | every same-type candidate is drawn from the hand |
| RustPlayGenerator.TrumpCandidatesDrawn | rust/datongzi-rules/src/ai_helpers/play_generator.rs:216-242 | every trump candidate is drawn from the hand |
| RustPlayGenerator.SameTypeOrTrumpSound | rust/datongzi-rules/src/ai_helpers/play_generator.rs:171-250 | a play is returned exactly when the hand is non-empty, it is a candidate and it can beat the current play; every returned play is valid, drawn from the hand, and of the current type or a trump |
| RustPlayGenerator.TrumpsAnswerOrdinary | rust/datongzi-rules/src/ai_helpers/play_generator.rs:216-222 | against an ordinary play every bomb and dizha of the hand is returned |
| RustPlayGenerator.TrumpsBeatOrdinary | rust/datongzi-rules/src/ai_helpers/play_generator.rs:218-222 | every recognised bomb and dizha beats an ordinary play |
| RustPlayGenerator.OfferedTrumpsAnswer | rust/datongzi-rules/src/ai_helpers/play_generator.rs:216-248 | bombs and dizha that beat the play and are offered survive the final filter |
| RustPlayGenerator.RustSuitOrderDistinct | rust/datongzi-rules/src/ai_helpers/play_generator.rs:727-760 | the dizha generator's suit order names each suit once |
| RustPlayGenerator.TrumpsKept | rust/datongzi-rules/src/ai_helpers/play_generator.rs:245-248 | the final filter keeps every offered bomb and dizha that beats the current play |
| RustPlayGenerator.NoTongziAnswersOrdinary | rust/datongzi-rules/src/ai_helpers/play_generator.rs:216-248 | no tongzi is returned against an ordinary play, although the generator offers them |
| RustPlayGenerator.BiggerLowerBombRefused | rust/datongzi-rules/src/ai_helpers/play_generator.rs:863-880 | a five-card bomb of Fives passes the higher-bomb filter against four Kings, but the validator refuses it |
| Kicker.BlockCounts | rust/datongzi-rules/src/ai_helpers/kicker.rs:42-55 | a block counts every card of its rank over the four suits, is non-empty exactly when some card has the rank, and is a power block exactly when it holds four or more |
| Kicker.RankMultiset | rust/datongzi-rules/src/ai_helpers/kicker.rs:42-55 | a list of cards of one rank holds as many cards as its four suits together |
| Kicker.TacticModifiers | rust/datongzi-rules/src/ai_helpers/kicker.rs:77-143 | SaveHigh makes big cards dearer by 100 a card, HoardScore makes scoring cards dearer than DumpScore by 150 a card, Aggressive undercuts Efficiency by at least 90 a card, and touching a power block costs 1000 more under every tactic |
| Kicker.SevensCosts | rust/datongzi-rules/src/ai_helpers/kicker.rs:77-143 | worked example of TacticModifiers: three Sevens under Efficiency cost 6, 44 and 27 for takes 3, 2 and 1, and two Sevens taken whole under Aggressive cost -191 |
| Kicker.KnapsackSearch.constructor | rust/datongzi-rules/src/ai_helpers/kicker.rs:147-148 | the search starts with an empty selection and no incumbent (the f32::MAX sentinel) |
| Kicker.KnapsackSearch.DfsRecursive | rust/datongzi-rules/src/ai_helpers/kicker.rs:170-237 | pushes and pops leave the selection as it was, and the incumbent ends as the pruned depth-first search over the takes 0 to min(count, remaining) defines it |
| Kicker.SolveKnapsack | rust/datongzi-rules/src/ai_helpers/kicker.rs:146-167 | runs the search from the first block with nothing taken, and reports cost 0 only when no incumbent was recorded |
| KickerSearch.Extend | rust/datongzi-rules/src/ai_helpers/kicker.rs:212-234 | taking some cards of the next block extends the path, its count, its cost and its selection consistently |
| KickerSearch.Pad | rust/datongzi-rules/src/ai_helpers/kicker.rs:203-210 | padding a prefix with zero takes changes neither its selection, nor its cost, nor its total |
| KickerSearch.TotalPrefix | rust/datongzi-rules/src/ai_helpers/kicker.rs:203-210 | a prefix of an assignment never takes more cards than the whole |
| KickerSearch.ZeroTail | rust/datongzi-rules/src/ai_helpers/kicker.rs:203-210 | once a prefix holds the whole total, the rest takes nothing and costs nothing |
| KickerSearch.SearchNoWorse | rust/datongzi-rules/src/ai_helpers/kicker.rs:170-237 | the search always ends with an incumbent, never worse than the one it started from |
| KickerSearch.TakesNoWorse | rust/datongzi-rules/src/ai_helpers/kicker.rs:215-236 | the loop over the takes never leaves a worse incumbent |
| KickerSearch.SearchAttained | rust/datongzi-rules/src/ai_helpers/kicker.rs:186-210 | every incumbent the search records is a leaf assignment together with that leaf's cost |
| KickerSearch.LeafAttained | rust/datongzi-rules/src/ai_helpers/kicker.rs:186-200 | a leaf recorded from a path's state is an assignment whose cost includes 100 per unfilled slot |
| KickerSearch.TakesAttained | rust/datongzi-rules/src/ai_helpers/kicker.rs:215-236 | so is every incumbent the loop over the takes records |
| KickerSearch.SearchOptimal | rust/datongzi-rules/src/ai_helpers/kicker.rs:186-236 | without the pruning test the search ends no costlier than any assignment extending its path |
| KickerSearch.TakesOptimal | rust/datongzi-rules/src/ai_helpers/kicker.rs:215-236 | without pruning, the takes loop ends no costlier than any assignment whose next take is in range |
| KickerSearch.PicksWithin | rust/datongzi-rules/src/ai_helpers/kicker.rs:219-231 | every selection entry takes between one card and its block's count, and the entries take the assignment's total |
| KickerSearch.TakenAppend | rust/datongzi-rules/src/ai_helpers/kicker.rs:219-231 | the cards taken by two selections add up |
| KickerSearch.SolveAttained | rust/datongzi-rules/src/ai_helpers/kicker.rs:146-167 | solve_knapsack reports a leaf and that leaf's cost; every entry takes at most its block's count; the entries take at most the capacity; so the sentinel branch never applies |
| KickerSearch.ExhaustiveIsOptimal | rust/datongzi-rules/src/ai_helpers/kicker.rs:170-237 | the search without pruning reports a leaf, and no leaf that fits the capacity is cheaper |
| KickerSearch.PruningMissesCheaperLeaf | rust/datongzi-rules/src/ai_helpers/kicker.rs:181-183 | with a Three, two Twos and a Four, capacity 2 and Aggressive, the search returns the Twos at -175, while Three and Four cost -203 and the exhaustive search finds at most that |
| KickerSelection.FreeMembers | rust/datongzi-rules/src/ai_helpers/kicker.rs:277-282 | the free cards are the hand cards outside the main body and not protected, each as often as the hand holds it |
| KickerSelection.ChooseTactic | rust/datongzi-rules/src/ai_helpers/kicker.rs:245-256 | the given tactic when there is one; otherwise Aggressive exactly when at most capacity + 1 cards are free, and Efficiency otherwise |
| KickerSelection.RankSeqMembers | rust/datongzi-rules/src/ai_helpers/kicker.rs:298-308 | the ranks listed are exactly the ranks of the cards |
| KickerSelection.BuildBlocks | rust/datongzi-rules/src/ai_helpers/kicker.rs:298-308 | one block per rank in order of first appearance, each counting the free cards of its rank |
| KickerSelection.BlocksSound | rust/datongzi-rules/src/ai_helpers/kicker.rs:298-308 | every block counts all free cards of its rank and is non-empty; the ranks are pairwise distinct; every free card's rank has a block |
| KickerSelection.NoPowerBlocks | rust/datongzi-rules/src/ai_helpers/kicker.rs:239-243 | no block of the free cards is a power block, because a rank held four times is protected |
| KickerSelection.FreeBelowFour | rust/datongzi-rules/src/ai_helpers/kicker.rs:239-243 | a free card's rank has fewer than four free cards |
| KickerSelection.CardsOfSound | rust/datongzi-rules/src/ai_helpers/kicker.rs:313-322 | fitting picks turn into exactly as many cards as they take, no free card twice, and only cards of the picked ranks |
| KickerSelection.PicksDistinct | rust/datongzi-rules/src/ai_helpers/kicker.rs:219-231 | distinct blocks give selection entries of distinct ranks, each a block's rank |
| KickerSelection.SelectKickers | rust/datongzi-rules/src/ai_helpers/kicker.rs:270-325 | the free cards, nothing when none is free or the capacity is 0, otherwise the search's picks turned into free cards of each picked rank, in hand order |
| KickerSelection.AssignedPicksFit | rust/datongzi-rules/src/ai_helpers/kicker.rs:313-322 | any assignment's selection over the blocks fits the free cards |
| KickerSelection.SolvedPicksFitBlocks | rust/datongzi-rules/src/ai_helpers/kicker.rs:310-322 | the search's selection over distinct counted blocks fits the free cards |
| KickerSelection.SolvedPicksFit | rust/datongzi-rules/src/ai_helpers/kicker.rs:310-322 | the search's selection over the blocks built from the free cards fits them |
| KickerSelection.CardsOfWithin | rust/datongzi-rules/src/ai_helpers/kicker.rs:313-322 | fitting picks take no card more often than the list holds it, and as many cards as they take |
| KickerSelection.PickedCardsFree | rust/datongzi-rules/src/ai_helpers/kicker.rs:313-322 | picked cards are hand cards outside the main body and not protected, used no more often than the hand holds them |
| KickerSelection.KickersSound | rust/datongzi-rules/src/ai_helpers/kicker.rs:270-325 | the kickers are hand cards outside the main body and not protected, no card more often than the hand holds it, at most capacity of them, and none when nothing is free or the capacity is 0 |
| SuggesterFixes.RepeatCount | src/datongzi_rules/ai_helpers/pattern_suggester.py:116-117 | n copies of a card hold that card n times and no other card |
| SuggesterFixes.CapFromCounts | src/datongzi_rules/ai_helpers/pattern_suggester.py:114-117 | rebuilding over distinct keys holds each key min(count, 3) times and nothing else |
| SuggesterFixes.CappedCounts | src/datongzi_rules/ai_helpers/pattern_suggester.py:114-117 | the capped cards hold every card as often as the input, but at most three times |
| SuggesterFixes.RemoveDuplicatesSound | src/datongzi_rules/ai_helpers/pattern_suggester.py:103-124 | a proposal exactly when some card occurs more than three times; it caps every card at three copies, is never empty, and is rated 0.8 exactly when it forms a play and 0.4 otherwise |
| SuggesterFixes.ExcessOverKeys | src/datongzi_rules/ai_helpers/pattern_suggester.py:107-109 | a counter key counts more than three exactly when some card does |
| SuggesterFixes.TryRemoveDuplicates | src/datongzi_rules/ai_helpers/pattern_suggester.py:103-124 | the counting loop proposes what RemoveDuplicatesSound describes |
| SuggesterFixes.TryConfusions | src/datongzi_rules/ai_helpers/pattern_suggester.py:127-187 | the confusion loop (rank confusions at 0.7, suit confusions at 0.6) returns the first relabelling that forms a play, forward before backward |
| SuggesterFixes.FirstFixSound | src/datongzi_rules/ai_helpers/pattern_suggester.py:138-157 | a proposal is a relabelling by one listed confusion that forms a play, as long as the input, at the given confidence; there is none exactly when no relabelling by a confusion from that point on forms a play |
| SuggesterFixes.TryMinimalEdits | src/datongzi_rules/ai_helpers/pattern_suggester.py:190-217 | the three loops tried in order: drop one card, change one card's rank, change one card's suit |
| SuggesterFixes.TryRemovals | src/datongzi_rules/ai_helpers/pattern_suggester.py:193-197 | the first single-card removal that forms a play |
| SuggesterFixes.TryRankEdits | src/datongzi_rules/ai_helpers/pattern_suggester.py:200-206 | the first one-card rank change that forms a play, positions in order and ranks Five to Two |
| SuggesterFixes.TryRanksAt | src/datongzi_rules/ai_helpers/pattern_suggester.py:201-206 | the rank loop at one position gives that position's first success, or hands over to the next position |
| SuggesterFixes.TrySuitEdits | src/datongzi_rules/ai_helpers/pattern_suggester.py:209-215 | the first one-card suit change that forms a play |
| SuggesterFixes.TrySuitsAt | src/datongzi_rules/ai_helpers/pattern_suggester.py:210-215 | the suit loop at one position gives that position's first success, or hands over to the next position |
| SuggesterFixes.FirstRemovalSound | src/datongzi_rules/ai_helpers/pattern_suggester.py:193-197 | a removal proposal is rated 0.5, forms a play, and drops one card; there is none exactly when no removal forms a play |
| SuggesterFixes.FirstRankEditSound | src/datongzi_rules/ai_helpers/pattern_suggester.py:200-206 | a rank-edit proposal is rated 0.4, forms a play, and gives one card a rank from Five up; there is none exactly when no such edit forms a play |
| SuggesterFixes.FirstSuitEditSound | src/datongzi_rules/ai_helpers/pattern_suggester.py:209-215 | a suit-edit proposal is rated 0.4, forms a play, and gives one card another suit; there is none exactly when no such edit forms a play |
| SuggesterFixes.MinimalEditSound | src/datongzi_rules/ai_helpers/pattern_suggester.py:190-217 | a minimal edit forms a play and is a removal (0.5), a rank edit or a suit edit (0.4); there is none exactly when none of them forms a play, and then the input itself forms no play |
| PatternSuggester.CandidatesOrdered | src/datongzi_rules/ai_helpers/pattern_suggester.py:48-69 | every attempt appends at most one entry, so the corrections follow the attempts' order |
| PatternSuggester.CandidatesMembers | src/datongzi_rules/ai_helpers/pattern_suggester.py:48-69 | an entry is exactly a non-empty proposal of its attempt, with that attempt's confidence |
| PatternSuggester.CandidateConfidences | src/datongzi_rules/ai_helpers/pattern_suggester.py:48-69 | every entry is rated between 0.4 and 0.8 and forms a play, unless it is capped duplicates rated 0.4 |
| PatternSuggester.ProposalConfidence | src/datongzi_rules/ai_helpers/pattern_suggester.py:103-217 | what each attempt's proposal is rated, and that only the duplicate cap may propose cards that form no play |
| PatternSuggester.KeepMembers | src/datongzi_rules/ai_helpers/pattern_suggester.py:71-85 | a filter keeps exactly the entries that meet its criterion |
| PatternSuggester.KeepOrdered | src/datongzi_rules/ai_helpers/pattern_suggester.py:71-85 | filtering keeps the attempts' order |
| PatternSuggester.FilteredSound | src/datongzi_rules/ai_helpers/pattern_suggester.py:71-85 | the two filters keep exactly the entries of the expected size that (on request) form a play, in order |
| PatternSuggester.BestAt | src/datongzi_rules/ai_helpers/pattern_suggester.py:91-95 | the entry the stable sort puts first is an index of the list |
| PatternSuggester.BestIsFirstMaximal | src/datongzi_rules/ai_helpers/pattern_suggester.py:91-95 | that entry is rated at least as high as every entry, and every entry before it is strictly lower |
| PatternSuggester.ChosenSound | src/datongzi_rules/ai_helpers/pattern_suggester.py:71-95 | the entry chosen survives the filters and is rated at least as high as every survivor, the earliest attempt among equals; there is none exactly when no proposal survives |
| PatternSuggester.FilteredBest | src/datongzi_rules/ai_helpers/pattern_suggester.py:71-95 | the same choice over any list of entries in the attempts' order |
| PatternSuggester.SuggestionSound | src/datongzi_rules/ai_helpers/pattern_suggester.py:22-100 | no cards give ([], 0.0); a play comes back at 1.0; otherwise 0.0 and the detected cards exactly when no proposal survives, else the cards of the best surviving proposal at its confidence, of the expected size and forming a play when asked |
| PatternSuggester.SuggestCorrection | src/datongzi_rules/ai_helpers/pattern_suggester.py:22-100 | the method computes that suggestion |
| PatternSuggester.CollectCorrections | src/datongzi_rules/ai_helpers/pattern_suggester.py:48-69 | the four attempts, each appended when it proposes cards |
| PatternSuggester.Propose | src/datongzi_rules/ai_helpers/pattern_suggester.py:48-69 | the proposal of the attempt behind each tag |
| PatternSuggester.Append | src/datongzi_rules/ai_helpers/pattern_suggester.py:53-69 | a non-empty proposal is appended with its attempt's tag; no proposal appends nothing |
| PatternSuggester.CopyErrorsSound | src/datongzi_rules/ai_helpers/pattern_suggester.py:237-242 | each copy error names a listed card with its true count above the maximum; every such card is named; distinct keys give distinct errors |
| PatternSuggester.HandErrorsSound | src/datongzi_rules/ai_helpers/pattern_suggester.py:220-254 | a hand passes exactly when no card is held more than total // 44 times and it holds at most total cards; each card over the maximum is named once with its count; the size error appears exactly when the hand is too large |
| PatternSuggester.ValidateHand | src/datongzi_rules/ai_helpers/pattern_suggester.py:220-254 | returns those errors, and valid exactly when there are none |
| PatternSuggester.RanksHoldingPositive | src/datongzi_rules/ai_helpers/pattern_suggester.py:301 | some rank holds k cards exactly when the count of such ranks is positive |
| PatternSuggester.ShapeGuardsRecognised | src/datongzi_rules/ai_helpers/pattern_suggester.py:284-320 | every shape the single, pair, triple, tongzi, triple-with-two, bomb and dizha guards describe is a play the recognizer accepts |
| PatternSuggester.SuggestPatternTypeSound | src/datongzi_rules/ai_helpers/pattern_suggester.py:257-330 | nothing for no cards; the recognised type for a play; for cards forming no play only a chain type, with pairs or triples of every rank present or two triples and enough pairs |

## Left out

- Shuffling, the random first seat and dealing inside the `GameSimulator` constructor are not modelled. The dealt `GameState` is an input.
- Logging, printing, `_log_action`, `_generate_game_report` and the display of `HandPatterns` are not modelled. They are presentation only.
- The message strings of `validate_hand` and of the variant validators are modelled as datatypes (`HandError`, `Warning`) that carry the same numbers.
- The dictionary-shaped game summaries are not modelled. They are reporting only; `total_events` is modelled.
- Floating-point hand evaluation (`hand_evaluator.py`) is not modelled.
- The kicker's `f32` costs are integers here, because every constant is integral. The `f32::MAX` sentinel is `None`.
- The kicker timing tests are not modelled.
- Python `dict`, `Counter` and Rust `HashMap` iteration orders are modelled as first-occurrence order. For the Rust `HashMap` this is one order among those the program may see. The results that matter are either sorted afterwards or stated as membership.
- The Rust `i < j < k` index loops of the generators are modelled as the order-preserving combinations of the group, which is the same list.
- The Rust `PlayValidator` is not part of this model. The Rust play generator uses the Python `can_beat_play`, which compares a bomb's rank before its size.
  - The Rust `_generate_higher_bombs` compares size first. `RustPlayGenerator.BiggerLowerBombRefused` shows a bomb it lets through that the validator refuses.
- The Rust generator offers every Tongzi against an ordinary play, but `can_beat_play` refuses them (`RustPlayGenerator.NoTongziAnswersOrdinary`).
- `RustPlayGenerator.TripleWithKickersEmpty` holds because the Rust generator keeps a kicked triple only if the recognizer calls four or five cards a Triple, which it never does. The model follows that code.
- `RustPlayGenerator.GenerateAllPlays` returns its error as `ExceedsLimit(generated, limit)`, without the message text.
- `RustPlayGenerator.CountAllPlays` counts the unfiltered generators, as the source does. It is not the length of `generate_all_plays`.
- The recognizer is a parameter (`valid`, `recognised`, `analyse`) in some lemmas. There they hold for any verdict, and the lemmas that need the real recognizer assume only that the parameter is it.
- The sort of `suggest_correction` is modelled as the first entry of highest confidence, which is what a stable descending sort puts first.
- The Rust `deal_cards` panics when more cards are asked for than remain. `Decks.RsDeck.DealCards` returns an error instead.
- The Rust `validate_config` panics on a `usize` underflow or a zero player count. These become the `Panic` error of `RsConfigFactory.ValidateConfig`.
- Integer overflow of 32-bit score totals and card counts is not modelled. All arithmetic is unbounded.
- The Rust tests that describe behaviour absent from the Rust recognizer and configuration are not modelled. These are kicked triples as Triple, Two excluded from chains, airplanes beating each other, and a finish-bonus length check.
- `KickerSearch.PruningMissesCheaperLeaf`: the source's search is modelled as written, with its pruning. The optimality the tactic costs aim for is proved only for the search without pruning (`KickerSearch.ExhaustiveIsOptimal`).
- HandPatternAnalyzer.DizhaCandidate: the decomposition (`HandAnalysis.Decompose` and its lemmas) joins each Dizha in the Python suit order. The Rust analyzer's Dizha groups hold the same cards (`HandAnalysis.DizhaOrderSameCards`), but their order within the group is not carried through the decomposition.

## Findings

| source | as written | input that shows it | evidently intended | confidence | as-written member | corrected member |
|---|---|---|---|---|---|---|
| src/datongzi_rules/models/config.py:45-48 | the generic finish bonus is 100 followed by n−1 copies of −(100 // (n−1)) | 7 players: [100, −16, −16, −16, −16, −16, −16] sums to 4 | a zero-sum list, the remainder carried to second place as the Rust factory does | not executed | PyConfig.SevenPlayerBonusAsWrittenIsNotZeroSum | PyConfig.GenericFinishBonusZeroSum |
| src/datongzi_rules/simulation/game_simulator.py:187-196 | `_end_round` (line 188) seats the winner through `_start_new_round`, and then `advance_to_next_player()` (line 196) moves the turn on, so the seat after the winner leads | any round won by a player who has not finished | the winner of a round leads the next one | not executed | GameRules.WinnerDoesNotLead | GameRules.IntendedWinnerLeads |
| src/datongzi_rules/patterns/finders.py:461-468 | the wing cards of an airplane rank are its cards not equal to any airplane card, so equal copies of a body card are dropped as well; the finders are modelled this way | hand 5♠ 5♥ 5♦ 5♠ 5♥ 6♦ 6♣ 6♥ 7♠ 7♠: the spare fives offer no pair and the finder returns None | the wings are the hand minus the body, copy for copy | not executed | WingFinder.TwoDeckHandOffersOneWing | WingFinder.WingOfMeaning |
| rust/datongzi-rules/src/ai_helpers/kicker.rs:181-183 | the search prunes a branch whose partial cost reaches the incumbent, although later takes under Aggressive lower the cost | hand [3♠, 2♠, 2♥, 4♠], no main cards, capacity 2, Aggressive: returns the Twos at −175 while 3 and 4 cost −203 | the cheapest leaf | not executed | KickerSearch.PruningMissesCheaperLeaf | KickerSearch.ExhaustiveIsOptimal |
