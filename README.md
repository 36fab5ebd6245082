# GULP adapter of pyxtal, modelled in Dafny

This project models the text adapter between pyxtal and the GULP lattice
simulation program (`pyxtal/interface/gulp.py`). The adapter has two
calculators:

- `GULP` handles atomic crystals. `write` turns a structure into a GULP input
  deck. `read` scans the GULP log for the energy, stress, forces, coordinates
  and lattice, and decides whether the run failed.
- `GULP_OC` does the same for molecular crystals. It types every atom through
  the GAFF table `at_types`.

The model has four layers.

- **Values.** Modules `Numbers`, `Text`, `Crystal`, `AtomTypes`:
  - Python floats are the exact values `Finite(r)`, `Infinite(sign)` or `NaN`.
  - `float()` and `int()` are partial functions.
  - `{:w.pf}` is right-aligned fixed-point text, rounded half to even.
  - `str.split()`, `str.find`, `str.strip` and the `{:4s}` padding are modelled.
  - Lattices are recorded by the data they were built from.
  - `at_types` is a constant map, written as the union of its per-element groups in the order the source lists them.
- **Line recognisers.** Modules `LogFields`, `LogBlocks`, `ForceRepair`:
  - fields of a line;
  - the energy regular expression as `re.match` applies it, backtracking included;
  - the fixed-offset blocks (stress, lattice vectors, cell parameters);
  - the tables that run to the dashed sentinel line (derivatives, coordinates);
  - the repair of force fields that GULP's fixed-width output has run together.

  Every reader returns `None` exactly where Python raises.
- **Specification functions.** Modules `GulpDeck`, `GulpRead`, `OcDeck`, `OcRead`:
  - A deck is the sequence of `f.write` calls. It stops at the call that raises.
  - A read is a forward pass that stops at the first exception. In `GULP.read`
    the bare `except` then clears the energy. `GULP_OC.read` has no `try`, so the
    exception leaves `read` before its last lines run.
- **The calculator objects.** `GulpCalc.Gulp` and `OcCalc.GulpOC`:
  - Their methods keep the source's loops: the `for` over lines, the
    `while True` scans, the in-place filling of `np.zeros` arrays, the list `g`
    mutated by the force repair.
  - Each method is proved equal to its specification function. The properties
    are proved about those functions.

Inputs the adapter takes from elsewhere are parameters:

- the log's lines;
- the cell parameters `get_para` gives;
- the order in which a Python `set` is iterated;
- the lattice matrix.

## Model

| member | source | states |
|---|---|---|
| AtomTypes.TableNamesElements | pyxtal/interface/gulp.py:13-97 | every symbol of `at_types` is non-empty and does not start with `_`, and its type code starts with the symbol's first letter |
| AtomTypes.AtTypesElement | pyxtal/interface/gulp.py:13-97 | an atom the table types has an element, and its code starts with that element's first letter: no atom is typed as another element |
| AtomTypes.SymbolOf | pyxtal/interface/gulp.py:557-559 | the symbol starts with the element; it is the bare element exactly for F, Cl and Br, and otherwise `_` and the label follow |
| AtomTypes.TypeCode | pyxtal/interface/gulp.py:561-567 | `at_types[symbol]` fails (`KeyError`) exactly when the symbol is not a key, and otherwise gives that key's code |
| AtomTypes.IodineEntryUnused | pyxtal/interface/gulp.py:557-559 | the symbol of an atom is never the bare `I`, so the table's iodine entry can never be looked up |
| ForceRepair.MinusFrom | pyxtal/interface/gulp.py:351 | the list holds every minus sign at or after the start, in increasing order, and nothing else |
| ForceRepair.Padded | pyxtal/interface/gulp.py:348-349 | the padded list has three entries: the fields read, then blanks |
| ForceRepair.PadFields | pyxtal/interface/gulp.py:348-349 | the appending loop yields the padded list |
| ForceRepair.Repaired | pyxtal/interface/gulp.py:350-365 | the repair always leaves exactly three values |
| ForceRepair.SplitFirstField | pyxtal/interface/gulp.py:351-360 | round `j = 0` stops the loop exactly when the first field holds two or more embedded minus signs, and then leaves the finished repair; otherwise it leaves the first field split at its one embedded minus sign, or the fields unchanged |
| ForceRepair.SplitSecondField | pyxtal/interface/gulp.py:351-364 | round `j = 1` splits the second field at its first embedded minus sign, replacing the third field |
| ForceRepair.RepairFields | pyxtal/interface/gulp.py:346-365 | the in-place loop over `g` (with its `break`) leaves the repaired fields of the padded list |
| ForceRepair.RepairNoMinus | pyxtal/interface/gulp.py:350-365 | fields with no minus sign after their first character are left as read |
| ForceRepair.RepairTwoMinus | pyxtal/interface/gulp.py:357-361 | with two embedded minus signs the first field is cut into three pieces; they rejoin it, the second and third start with `-`, the first holds no embedded `-` |
| ForceRepair.RepairOneMinus | pyxtal/interface/gulp.py:353-356 | with one embedded minus sign the first field is split there and the old second field moves to third place |
| ForceRepair.RepairKeepsText | pyxtal/interface/gulp.py:346-365 | in every case the repaired values spell a prefix of the fields as read: nothing is invented or reordered |
| ForceRepair.ForceIsNegatedDerivative | pyxtal/interface/gulp.py:366 | a force is the negated derivative (eV/Angstrom are unit scales); NaN and infinities carry through |
| LogFields.FieldAt | pyxtal/interface/gulp.py:332 | `split()[k]` exists exactly when the line has more than `k` fields, and it is a non-empty blank-free field |
| LogFields.LastField | pyxtal/interface/gulp.py:327 | `split()[-1]` exists exactly when the line is not blank, and it is the last field |
| LogFields.FieldSlice | pyxtal/interface/gulp.py:346 | `split()[lo:hi]` with Python's clamping of the bounds: its length and its fields |
| LogFields.ParseAll | pyxtal/interface/gulp.py:393 | the list comprehension of `float()` succeeds exactly when every token converts, and gives each one's value |
| LogFields.SentinelFrom | pyxtal/interface/gulp.py:342-345 | the scan stops at the first line holding `------------`; with none left it runs off the end |
| LogFields.GroupLength | pyxtal/interface/gulp.py:313-317 | the backtracking of `(\S+)\s*eV` settles on the longest group after which `\s*eV` matches |
| LogFields.MatchEnergy | pyxtal/interface/gulp.py:313-317 | a captured energy text is non-empty and has no blank; `MatchEnergyOfLine` and `MatchEnergySource` state both directions of which lines match and what they capture |
| LogFields.GroupOfToken | pyxtal/interface/gulp.py:315 | a number followed by blanks and `eV` is captured whole |
| LogFields.MatchEnergyOfLine | pyxtal/interface/gulp.py:313-320 | a line printed as `<phrase> = <number> eV`, blanks anywhere allowed, captures exactly the number |
| LogFields.MatchEnergySource | pyxtal/interface/gulp.py:313-317 | conversely, a line the pattern matches is blanks, the phrase, blanks, `=`, blanks, the captured text, blanks, `eV` and any rest |
| LogFields.MatchEnergyContains | pyxtal/interface/gulp.py:614-615 | a line the pattern matches contains the phrase, so the `find` guard of the molecular reader never hides a match |
| Text.Split | pyxtal/interface/gulp.py:332 | `split()` yields non-empty blank-free fields |
| Text.SplitJoin | pyxtal/interface/gulp.py:332 | splitting fields joined by single blanks gives the fields back |
| Text.SplitSkipsSpace | pyxtal/interface/gulp.py:346 | leading whitespace never changes the fields of a line |
| Text.Find | pyxtal/interface/gulp.py:323 | `find` gives the lowest index where the marker occurs, or -1 exactly when it occurs nowhere |
| Text.PadLeft | pyxtal/interface/gulp.py:255 | a right-aligned field is the text with blanks in front up to the width |
| Text.PadRight | pyxtal/interface/gulp.py:262 | a `{:4s}` field is the text with blanks after it up to the width |
| Text.StripPadLeft | pyxtal/interface/gulp.py:320 | `strip()` undoes left padding of a text without blanks at its ends |
| Numbers.Negate | pyxtal/interface/gulp.py:366 | negation flips the sign of a finite value and keeps NaN |
| Numbers.ScaleBy | pyxtal/interface/gulp.py:366 | scaling by a positive unit keeps finiteness and NaN |
| Numbers.DivideByCount | pyxtal/interface/gulp.py:321 | the energy per atom times the atom count is the energy |
| Numbers.RoundHalfEven | pyxtal/interface/gulp.py:255 | the rounded integer is within one half of the value, and even on a tie |
| Numbers.FormatFixedIsPadded | pyxtal/interface/gulp.py:255 | `{:w.pf}` is the printed number right-aligned in `w` columns |
| Numbers.FormatParseRoundTrip | pyxtal/interface/gulp.py:262 | `float()` of a `{:w.pf}` field gives back the value rounded to `p` decimals (infinities and NaN unchanged) |
| Numbers.FixedBodyRoundTrip | pyxtal/interface/gulp.py:262 | the printed number without padding reads back as the rounded value |
| Numbers.FixedBodyToken | pyxtal/interface/gulp.py:262 | a printed number is a single blank-free field |
| Numbers.IntRoundTrip | pyxtal/interface/gulp.py:296 | `int()` of `{:d}` text, padded to any width, gives the integer back |
| Numbers.ParseFloatIsStrip | pyxtal/interface/gulp.py:320 | `float(s)` reads `s.strip()` |
| Numbers.ParseIntIsStrip | pyxtal/interface/gulp.py:372 | `int(s)` reads `s.strip()` |
| LogBlocks.FloatField | pyxtal/interface/gulp.py:333 | `float(split()[k])` succeeds exactly when the field exists and converts |
| LogBlocks.CpuField | pyxtal/interface/gulp.py:327 | the CPU time is `float()` of the last field, and fails on a blank line or a non-number |
| LogBlocks.CycleField | pyxtal/interface/gulp.py:372 | the cycle number is `int()` of field 1 and fails where it is missing or not an integer |
| LogBlocks.StressBlock | pyxtal/interface/gulp.py:329-336 | the block exists exactly when lines `i+3..i+5` exist with numeric fields 1 and 3; it has 6 entries, `stress[j]` from field 1 and `stress[j+3]` from field 3 of line `i+j+3` |
| LogBlocks.StressRowMissing | pyxtal/interface/gulp.py:331-335 | one missing or non-numeric stress line is enough to raise |
| LogBlocks.ReadStress | pyxtal/interface/gulp.py:329-336 | the loop filling `np.zeros([6])` gives the stress block, and fails where it does |
| LogBlocks.AllRows | pyxtal/interface/gulp.py:393-394 | rows convert all or nothing, row `k` to entry `k` |
| LogBlocks.TableFromRows | pyxtal/interface/gulp.py:388-395 | the `while True` scan reads exactly the rows up to the first sentinel line, and raises without one |
| LogBlocks.TableSpan | pyxtal/interface/gulp.py:342-367 | a table that was read has one entry per line before the sentinel, entry `k` from line `s+k` |
| LogBlocks.ReadForceRow | pyxtal/interface/gulp.py:346-367 | one derivatives row: fields 3 to 5 padded, repaired, converted and negated |
| LogBlocks.DerivativeRows | pyxtal/interface/gulp.py:339-369 | the forces table runs from line `i+6` to the first sentinel line and fails without one; force `k` is what the repaired, negated row on line `i+6+k` gives |
| LogBlocks.ReadDerivatives | pyxtal/interface/gulp.py:339-369 | the `while True` loop collects the forces of the table from line `i+6` to the sentinel |
| LogBlocks.Unzip | pyxtal/interface/gulp.py:394-395 | positions and species are the two halves of each row, in order |
| LogBlocks.CoordinateRows | pyxtal/interface/gulp.py:384-398 | a coordinate table runs from line `i+6` to the first sentinel line and fails without one; row `k` is read from line `i+6+k`, and the positions and species are the two halves of the rows |
| LogBlocks.ReadCoordRow | pyxtal/interface/gulp.py:392-395 | one coordinate row: fields 3 to 5 as floats, then field 1 as the species; a missing field or a non-number fails |
| LogBlocks.ReadCoordinates | pyxtal/interface/gulp.py:384-395 | the `while True` loop appending positions and species gives the coordinate table |
| LogBlocks.AsArray | pyxtal/interface/gulp.py:398 | `np.array(positions)` succeeds exactly on rows of equal length, and keeps them |
| LogBlocks.VectorBlock | pyxtal/interface/gulp.py:399-406 | the lattice matrix exists exactly when lines `i+2..i+4` hold three numbers each; row `j` comes from line `i+2+j` |
| LogBlocks.VectorRowMissing | pyxtal/interface/gulp.py:402-405 | one missing or unreadable vector line is enough to raise |
| LogBlocks.ReadVectorRow | pyxtal/interface/gulp.py:403-405 | the inner loop fills one row of the 3x3 array, succeeds exactly when the line holds three numbers, and leaves the other rows alone |
| LogBlocks.ReadVectors | pyxtal/interface/gulp.py:399-406 | the nested loops filling `np.zeros((3, 3))` give the lattice matrix |
| LogBlocks.ParaBlock | pyxtal/interface/gulp.py:408-414 | `a, b, c` come from fields 2, 5, 8 of line `i+2` and the angles from fields 1, 3, 5 of line `i+3`; the block exists exactly when all six convert |
| GulpDeck.RowVec | pyxtal/interface/gulp.py:272 | `*coord` formats a row exactly when it has at least three entries, using the first three |
| GulpDeck.ZipLines | pyxtal/interface/gulp.py:271-272 | `zip` writes one `core` line per pair with the row's coordinates; a short row raises, after the lines of the rows before it |
| GulpDeck.Deck | pyxtal/interface/gulp.py:240-300 | `write` raises exactly when, off the symmetry path, a coordinate row paired with a site symbol has fewer than three entries |
| GulpDeck.DeckStartsWithPreamble | pyxtal/interface/gulp.py:243-256 | every deck, complete or not, starts with the header, cell and `fractional` lines |
| GulpDeck.PreambleHeader | pyxtal/interface/gulp.py:244-252 | the preamble's header and `nosymmetry` line |
| GulpDeck.DeckHeader | pyxtal/interface/gulp.py:244-252 | the header is `grad conp stress ` for `single` and `opti stress <opt> conjugate ` otherwise; `nosymmetry` follows exactly when symmetry is off |
| GulpDeck.DeckEndsWithDirectives | pyxtal/interface/gulp.py:291-300 | a complete deck ends with the directives |
| GulpDeck.DirectivesWithWord | pyxtal/interface/gulp.py:291-300 | which optional directives begin with a given word |
| GulpDeck.DirectivesContent | pyxtal/interface/gulp.py:291-300 | `library` and `ewald 10.0` come first; `maxcycle` appears iff `opt` is not `single`, `pressure` iff a pressure is set, `output cif` iff a dump file is named, each with its value |
| GulpDeck.DirectivesMaxcycle | pyxtal/interface/gulp.py:295-296 | a `maxcycle` line appears exactly when `opt` is not `single` |
| GulpDeck.DirectivesPressure | pyxtal/interface/gulp.py:297-298 | a `pressure` line appears exactly when `pstress` is set |
| GulpDeck.DirectivesCif | pyxtal/interface/gulp.py:299-300 | an `output cif` line appears exactly when `dump` is set |
| GulpDeck.F12Field | pyxtal/interface/gulp.py:262 | a `{:12.6f}` field is one blank-free number, padded, that reads back as the value rounded to six decimals |
| GulpDeck.SiteLineFields | pyxtal/interface/gulp.py:262 | an atom line splits into the symbol, three printed coordinates and the kind |
| GulpDeck.SymSiteCount | pyxtal/interface/gulp.py:260-264 | the symmetry path writes one core line per site plus one shell line per oxygen under `catlow` |
| GulpDeck.EntryLength | pyxtal/interface/gulp.py:276-289 | a symbol gets two `Species` lines only without labels, under `catlow`, for oxygen |
| GulpDeck.SpeciesCount | pyxtal/interface/gulp.py:273-289 | the section has one line per distinct symbol, plus the oxygen shell without labels under `catlow` |
| GulpDeck.SpeciesEntryListed | pyxtal/interface/gulp.py:277-289 | every line of a listed symbol's entry is in the section |
| GulpDeck.SpeciesWithLabels | pyxtal/interface/gulp.py:276-282 | with labels, each site symbol is written once, as its label or as itself |
| GulpDeck.SpeciesCountWithoutLabels | pyxtal/interface/gulp.py:283-289 | without labels, one line per distinct site symbol, plus one for the oxygen shell under `catlow` |
| GulpDeck.SpeciesWithoutLabels | pyxtal/interface/gulp.py:283-289 | without labels, oxygen under `catlow` gets its core and shell lines and every other symbol `<s> core <s>` |
| GulpRead.EnergyPhrase | pyxtal/interface/gulp.py:312-317 | the phrase starts with a non-blank, so the pattern's leading `\s*` cannot eat into it; choosing it raises without a pyxtal structure or group symbol |
| GulpRead.EnergyPhraseChoice | pyxtal/interface/gulp.py:312-317 | `Non-primitive unit cell` iff symmetry is on and the group symbol does not start with `P`; otherwise `Total lattice energy` iff no or zero pressure |
| GulpRead.AsymmetricSites | pyxtal/interface/gulp.py:378-382 | the site loop keeps the number of sites |
| GulpRead.AsymmetricSitesSpec | pyxtal/interface/gulp.py:375-382 | species never change; without a failing line each site has its line's position; it raises exactly when one of the lines is missing or unreadable |
| GulpRead.AsymmetricStops | pyxtal/interface/gulp.py:378-382 | after a failing line the later sites are left alone |
| GulpRead.Finish | pyxtal/interface/gulp.py:415-431 | `error` is the old flag or a missing energy; the energy is kept exactly when nothing raised, a lattice was found and it is not NaN; lattice parameters win over vectors, and with neither the lattice stays; the pyxtal structure takes the new lattice; nothing else changes |
| GulpRead.ReadErrorIffNoEnergy | pyxtal/interface/gulp.py:415-431 | with no earlier error, `error` after `read` holds exactly when `energy` is None, and a kept energy is never NaN |
| GulpRead.ClassifyFirstMarker | pyxtal/interface/gulp.py:319-414 | a line the energy pattern does not match goes to the first marker of the `elif` chain it contains |
| GulpRead.ClassifyPlain | pyxtal/interface/gulp.py:319-414 | a line is passed over exactly when it matches neither the pattern nor any marker |
| GulpRead.ClassifyHolds | pyxtal/interface/gulp.py:323-414 | `Job Finished`, vectors and parameters branches are taken only for lines holding their marker |
| GulpRead.DispatchFrame | pyxtal/interface/gulp.py:323-414 | only a parameters header sets `lattice_para`, only a vectors header sets `lattice_vector`, only `Job Finished` turns `optimized` on |
| GulpRead.StepFrame | pyxtal/interface/gulp.py:311-414 | one round of the loop changes the lattice locals and `optimized` only as the markers allow |
| GulpRead.StepEnergyLine | pyxtal/interface/gulp.py:312-321 | a printed energy line sets the energy to the number and the per-atom energy to its share; a non-number or an empty coordinate array raises |
| GulpRead.DispatchStress | pyxtal/interface/gulp.py:329-336 | a stress header sets a 6-entry stress from the three lines after the next two, or raises, and changes nothing else |
| GulpRead.DispatchDerivatives | pyxtal/interface/gulp.py:339-369 | a derivatives header sets only the forces, one per line from `i+6` to the sentinel, force `k` from line `i+6+k`; it raises without a sentinel |
| GulpRead.DispatchFractional | pyxtal/interface/gulp.py:384-398 | a fractional header replaces only the fractional coordinates, by the positions of its table's rows (row `k` from line `i+6+k`), however many there are, with no count check against the sites; what it keeps is rectangular, and a missing sentinel raises |
| GulpRead.ScanStops | pyxtal/interface/gulp.py:310-417 | once a line raises, the rest of the log is not read |
| GulpRead.PassStopsAtRaise | pyxtal/interface/gulp.py:310-417 | after an exception later rounds change nothing |
| GulpRead.PassPara | pyxtal/interface/gulp.py:408-414 | `lattice_para` is set only from a parameters header of the log, and stays unset without one |
| GulpRead.PassVector | pyxtal/interface/gulp.py:399-406 | `lattice_vector` is set only from a vectors header of the log, and stays unset without one |
| GulpRead.PassOptimized | pyxtal/interface/gulp.py:323-324 | `optimized` ends on only if it started on or a `Job Finished` line was passed |
| GulpRead.LineStepFrame | pyxtal/interface/gulp.py:311-414 | every round of the loop respects the three frames above |
| GulpRead.ReadLog | pyxtal/interface/gulp.py:302-432 | after `read` an earlier error stays set, a kept energy is a number, and the pyxtal structure, if any, holds the calculator's new lattice |
| GulpRead.ReadLattice | pyxtal/interface/gulp.py:418-424 | after `read` the lattice is the old one or comes from a block of the log; with no parameters or vectors header it is the old one, `error` is set and the energy cleared |
| GulpRead.ReadOptimized | pyxtal/interface/gulp.py:323-324 | `optimized` needs a `Job Finished` line; a missing marker is no error |
| GulpCalc.Gulp.constructor | pyxtal/interface/gulp.py:115-170 | the object keeps its settings, the ASE cell as a triclinic lattice, the scaled positions and symbols, and starts with no results |
| GulpCalc.Gulp.WriteSymmetricSites | pyxtal/interface/gulp.py:258-264 | the loop over atom sites writes the symmetry-path atom lines |
| GulpCalc.Gulp.WriteZippedSites | pyxtal/interface/gulp.py:269-272 | the loop over `zip(frac_coords, sites)` writes the zipped atom lines, stopping at a short row |
| GulpCalc.Gulp.WriteSpecies | pyxtal/interface/gulp.py:273-289 | the loop over the symbol set writes the `Species` lines |
| GulpCalc.Gulp.WritePreamble | pyxtal/interface/gulp.py:241-256 | the header, `nosymmetry`, cell and `fractional` lines |
| GulpCalc.Gulp.WriteDirectives | pyxtal/interface/gulp.py:291-300 | the library, Ewald and optional directive lines |
| GulpCalc.Gulp.Write | pyxtal/interface/gulp.py:240-300 | `write` makes exactly the calls of the deck, whose header, atom lines, species and directives are proved above |
| GulpCalc.Gulp.UpdateSites | pyxtal/interface/gulp.py:375-382 | the loop calling `update` on each atom site agrees with the site-loop function |
| GulpCalc.Gulp.ReadAsymmetric | pyxtal/interface/gulp.py:375-382 | the asymmetric-unit branch |
| GulpCalc.Gulp.ReadEnergy | pyxtal/interface/gulp.py:319-321 | the energy branch |
| GulpCalc.Gulp.ReadCpuTime | pyxtal/interface/gulp.py:326-327 | the CPU time branch |
| GulpCalc.Gulp.ReadCycle | pyxtal/interface/gulp.py:371-372 | the cycle branch |
| GulpCalc.Gulp.ReadFractional | pyxtal/interface/gulp.py:384-398 | the fractional-coordinates branch |
| GulpCalc.Gulp.ChoosePhrase | pyxtal/interface/gulp.py:312-317 | the phrase chosen for each line |
| GulpCalc.Gulp.ClassifyLine | pyxtal/interface/gulp.py:319-414 | the `if`/`elif` tests in order |
| GulpCalc.Gulp.Handle | pyxtal/interface/gulp.py:319-414 | the branch taken updates the attributes in place as the dispatch function says |
| GulpCalc.Gulp.ReadLine | pyxtal/interface/gulp.py:311-414 | one iteration of the `for` loop |
| GulpCalc.Gulp.ReadLines | pyxtal/interface/gulp.py:310-417 | the `for` loop inside the `try`, left at the first exception, is the pass over the whole log |
| GulpCalc.Gulp.Conclude | pyxtal/interface/gulp.py:415-431 | the `except`, lattice choice and energy check leave the state `Finish` describes |
| GulpCalc.Gulp.Read | pyxtal/interface/gulp.py:302-432 | `read` leaves the object as the read function says, so lattice precedence, the error/energy invariant and the frames above hold of the object |
| OcDeck.MoleculeLinesDone | pyxtal/interface/gulp.py:555-567 | a molecule's atom loop completes exactly when every atom is written |
| OcDeck.MoleculeLinesContent | pyxtal/interface/gulp.py:555-564 | a completed atom loop gives line `j` and symbol `j` for atom `j` |
| OcDeck.MoleculeLinesFailure | pyxtal/interface/gulp.py:555-567 | a failed atom loop stops at the first atom that raises, with its exception and the lines before it |
| OcDeck.MoleculeStops | pyxtal/interface/gulp.py:561-567 | once an atom raises, nothing more is written |
| OcDeck.AtomsPartStops | pyxtal/interface/gulp.py:547-567 | once a site raises, the site loop is over |
| OcDeck.SpeciesStops | pyxtal/interface/gulp.py:571-572 | once a lookup raises, the `Species` loop is over |
| OcDeck.SiteLinesOk | pyxtal/interface/gulp.py:547-567 | a site is written in full exactly when its labels and charges are found and each atom has a type and a charge; then one line per atom |
| OcDeck.AtomsPartOk | pyxtal/interface/gulp.py:547-567 | the atom lines complete exactly when every site does; a failure comes from the first site that does not |
| OcDeck.AtomTyping | pyxtal/interface/gulp.py:555-567 | each atom line carries `at_types[symbol]`, the symbol being the bare element for F, Cl, Br and `element_label` otherwise; an unknown symbol raises `KeyError` for that symbol, a missing label or charge `IndexError`; no default type is ever written |
| OcDeck.MoleculeSymbolsTyped | pyxtal/interface/gulp.py:557-560 | every symbol collected from a molecule has a type code |
| OcDeck.AtomsPartSymbolsTyped | pyxtal/interface/gulp.py:545-560 | every symbol collected from the sites has a type code |
| OcDeck.SpeciesNeverRaise | pyxtal/interface/gulp.py:569-572 | the `Species` lookups never raise after the atom lines, and each symbol of the set gets one line with its code |
| OcDeck.OperatorLayout | pyxtal/interface/gulp.py:577-582 | each operation gives the keyword and three rows: column `r` of the rotation with component `r` of the translation |
| OcDeck.BondLength | pyxtal/interface/gulp.py:587-589 | one `connect` line per copy |
| OcDeck.BondLayout | pyxtal/interface/gulp.py:587-589 | copy `i` of a bond shifts both atom ids by `i` times the atom count |
| OcDeck.ConnectLength | pyxtal/interface/gulp.py:585-589 | the `connect` section has one line per bond per copy |
| OcDeck.ConnectLayout | pyxtal/interface/gulp.py:585-589 | the lines of bond `b` are its copies, in order, at offset `b` times the copies |
| OcDeck.OcDeckOf | pyxtal/interface/gulp.py:524-603 | a crystal without molecular sites never gets a complete deck, and a complete deck ends with the directives |
| OcDeck.DeckStartsWithPreamble | pyxtal/interface/gulp.py:534-543 | every deck starts with header, cell and `fractional` |
| OcDeck.DeckCompletes | pyxtal/interface/gulp.py:545-576 | the write completes exactly when there is a site and every site is written in full; without sites it raises `IndexError` right after the `symmetry_cell` line |
| OcDeck.DeckPieces | pyxtal/interface/gulp.py:534-603 | a complete deck is preamble, atom lines, `Species` lines, `symmetry_cell` and the closing part, in that order |
| OcDeck.DeckSpecies | pyxtal/interface/gulp.py:569-572 | in a complete deck the `Species` keyword follows the atom lines, with one line per distinct symbol carrying its type code |
| OcDeck.DeckRows | pyxtal/interface/gulp.py:569-572 | where the `Species` lines sit in a complete deck |
| OcDeck.ClosingLayout | pyxtal/interface/gulp.py:574-603 | the closing part: operator blocks for every non-identity operation of the first site, then with `bond_type` the first site's bonds for each copy of the last site, then the directives |
| OcDeck.OcDirectivesContent | pyxtal/interface/gulp.py:590-603 | `library <ff>.lib`, `ewald 10.0`, `maxcycle`, `stepmx`, `ftol 0.0001`, `gtol 0.002` and `gmax 0.01` are always written, in that order; `output cif` follows exactly when a dump file is named |
| OcRead.EnergyLineSkipsChain | pyxtal/interface/gulp.py:614-618 | a line holding the energy phrase never enters the marker chain; it raises exactly when a matched text is not a number |
| OcRead.EnergyPrinted | pyxtal/interface/gulp.py:615 | a printed energy line contains the phrase and the pattern captures the number |
| OcRead.OcStepEnergyLine | pyxtal/interface/gulp.py:614-617 | such a line sets the structure's energy to the number, or raises on a non-number |
| OcRead.OcStepEnergyText | pyxtal/interface/gulp.py:614-617 | a matched text sets the energy or raises, and changes nothing else |
| OcRead.OcCoordinatesRows | pyxtal/interface/gulp.py:637-655 | a coordinates header sets positions and species from the table up to the sentinel; a missing sentinel, a bad row or ragged rows raise and change nothing |
| OcRead.OcDispatchFrame | pyxtal/interface/gulp.py:618-664 | no branch touches the version; only a vectors header sets the cell, to its block |
| OcRead.OcStepFrame | pyxtal/interface/gulp.py:610-664 | one round sets the cell and the version only as the lines allow |
| OcRead.OcLineStepFrame | pyxtal/interface/gulp.py:610-664 | every round of the loop respects those frames |
| OcRead.OcPassStops | pyxtal/interface/gulp.py:610-664 | after an exception later rounds change nothing |
| OcRead.OcScanStops | pyxtal/interface/gulp.py:610-664 | once a line raises, `read` reads no more |
| OcRead.OcPassCell | pyxtal/interface/gulp.py:657-664 | the cell is the one before the pass or comes from a vectors header, and stays as it was without one |
| OcRead.OcPassVersion | pyxtal/interface/gulp.py:611-612 | the version is line 7's text once the pass has run past it, and untouched before |
| OcRead.OcScanVersion | pyxtal/interface/gulp.py:610-612 | the same for the pass of `read` |
| OcRead.OcReadLog | pyxtal/interface/gulp.py:606-670 | a `read` that raises leaves both lattices alone; otherwise the structure and the calculator share one lattice, built from the cell |
| OcRead.ReadCell | pyxtal/interface/gulp.py:665-670 | after a `read` that did not raise, the structure and the calculator share one lattice built from the cell. The cell comes from a vectors block of the log, or else is the cell an earlier `read` left, or else the structure's own matrix. A raising `read` leaves both lattices alone |
| OcRead.ReadKeepsPass | pyxtal/interface/gulp.py:606-670 | every attribute but the cell is what the pass left |
| OcCalc.GulpOC.constructor | pyxtal/interface/gulp.py:452-492 | the object keeps its settings and structure and starts with no results |
| OcCalc.GulpOC.WriteMolecule | pyxtal/interface/gulp.py:555-567 | the loop over a molecule's atoms gives that molecule's atom lines |
| OcCalc.GulpOC.WriteAtoms | pyxtal/interface/gulp.py:545-567 | the loop over molecular sites gives the atom lines of the deck |
| OcCalc.GulpOC.WriteSpecies | pyxtal/interface/gulp.py:569-572 | the loop over the symbol set gives the `Species` lines |
| OcCalc.GulpOC.WriteOperators | pyxtal/interface/gulp.py:577-582 | the loop over operations gives the operator blocks |
| OcCalc.GulpOC.WriteConnect | pyxtal/interface/gulp.py:585-589 | the nested loops over bonds and copies give the `connect` lines |
| OcCalc.GulpOC.WriteDirectives | pyxtal/interface/gulp.py:590-603 | the closing directives |
| OcCalc.GulpOC.Write | pyxtal/interface/gulp.py:524-603 | `write` makes exactly the calls of the molecular deck, whose typing, layout and failures are proved above |
| OcCalc.GulpOC.HandleEnergy | pyxtal/interface/gulp.py:614-617 | the energy branch changes only the structure's energy |
| OcCalc.GulpOC.HandleCpu | pyxtal/interface/gulp.py:622-623 | the CPU time branch |
| OcCalc.GulpOC.HandleStress | pyxtal/interface/gulp.py:625-632 | the stress branch |
| OcCalc.GulpOC.HandleCycle | pyxtal/interface/gulp.py:634-635 | the cycle branch |
| OcCalc.GulpOC.HandleCoordinates | pyxtal/interface/gulp.py:637-655 | the coordinates branch |
| OcCalc.GulpOC.HandleVectors | pyxtal/interface/gulp.py:657-664 | the vectors branch |
| OcCalc.GulpOC.ClassifyLine | pyxtal/interface/gulp.py:614-664 | the energy test and the marker chain in order |
| OcCalc.GulpOC.Handle | pyxtal/interface/gulp.py:618-664 | the branch taken changes only what the dispatch function says, and of the structure only its energy |
| OcCalc.GulpOC.ReadLine | pyxtal/interface/gulp.py:610-664 | one iteration: the version, then the line's branch |
| OcCalc.GulpOC.ReadLines | pyxtal/interface/gulp.py:610-664 | the `for` loop, left at the first exception, is the pass over the whole log |
| OcCalc.GulpOC.Read | pyxtal/interface/gulp.py:606-670 | `read` leaves the object as the read function says, so the cell, version and lattice properties above hold of the object. The molecular sites and group stay untouched only because the site update after the lattice (lines 672-683) is not modelled |

## Left out

- Reading and writing files and the process environment are left out. `read` takes the log's lines and `write` returns its `f.write` calls. The `OCSP_GULPEXE` override and the `OCSP_GULP_LIB` copy (lines 475-476 and 592-593) are not modelled.
- `execute`, `run`, `clean`, `to_ase`, `to_pymatgen`, `to_pyxtal`, `single_optimize`, `optimize` and the `__main__` script are not part of this model. They are process, file and conversion plumbing.
- Lattice arithmetic is left out: `get_para`, `Lattice.from_matrix`, `Lattice.from_para`, `np.degrees` and `lattice.matrix`.
  - The cell parameters and matrix are parameters.
  - A lattice built by `read` is recorded by the data and lattice type it was built from.
- In `GULP.__init__`, the conversion of a pyxtal structure to ASE atoms is left out. The constructor takes the resulting cell, scaled positions and symbols.
- Binary64 details of floats are left out: rounding of parsed values, overflow to infinity, and the sign of zero. `float()` also does not accept underscores or non-ASCII digits here.
- The step size `stepmx` is the text `str()` gives the step size, taken as a setting, because Python's shortest round-trip float printing is not modelled.
- The iteration order of a Python `set` is a parameter of both `write` methods. It is only required to list each symbol once.
- `atom_site.update` is modelled as accepting exactly three coordinates and raising otherwise; its internals are in pyxtal.
- The part of `GULP_OC.read` after the lattice update (lines 672-683) is left out: `site.update` and `optimize_lattice` behind a bare `except`. So `OcCalc.GulpOC.Read` leaves the molecular sites and the group unchanged, where the source may move them.
- The `gmx_label` and `charge` properties of a molecule are taken as present: the model reads them as fields of the site, so the `KeyError` that `GULP_OC.write` raises for a molecule without them (lines 550-551) is not modelled.
- `np.zeros` arrays are created uninitialised (`new Float[6]`, `new Float[3, 3]`), since every entry is written before it is read or the method returns `None`.
- GulpRead.EnergyPhrase: its own contract states only the shape of the phrase; which phrase is chosen is stated by `GulpRead.EnergyPhraseChoice`.
- ForceRepair.Repaired: its own contract states only that three values come out; what they are is stated by `RepairNoMinus`, `RepairOneMinus`, `RepairTwoMinus` and `RepairKeepsText`.
- The source's `print` calls are left out.
- A missing `Job Finished` line is not an error: that line only sets `optimized` (`GulpRead.ReadOptimized`).
- LogBlocks.AsArray: models `np.array` as numpy 1.24 and later behave, raising on ragged rows; older numpy builds an object array with a warning instead.
- The caller's objects are not updated in place. The source changes `self.pyxtal.lattice`, the sites through `atom_sites[..].update`, and `self.structure.energy` and `self.structure.lattice`, objects its caller may share. The model holds the pyxtal structure and the molecular crystal as value fields of the calculator, so only the calculator's own copy changes, and aliasing with the caller is not captured.
- `int()` here, like `float()`, does not accept underscores in the digits.
