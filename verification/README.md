# g4fire core, modelled in Dafny

This project models the logic core of g4fire. g4fire is the Geant4-based
simulation processor of LDMX, a light dark matter experiment. The model covers
these parts:

- **Dark-brem vertex library.** It covers how the library is loaded from
  MadGraph LHE files. It covers the per-atom cross section, and how a
  library vertex is chosen and scaled to the incident electron (forward-only,
  cm-scaling or unscaled).
- **LHE event reader and track map.** The LHE reader builds an event from
  its lines, including the embedded vertex record and the mother links. The
  track map records ancestry and finds the incident track.
- **Event objects.** This means the calorimeter hit with its contributions,
  the tracker hit, and the simulated particle with its process-type
  classification.
- **Configuration.** The typed `Parameters` store is modelled together with
  its Python counterpart, which type-checks assignments.
- **Processor set-up.** The `Simulator` constructor checks commands, reads
  the configuration, seeds the engine and records the run header.
- **Registries.** The plugin and parser factories, and the user-action
  dispatchers.
- **Detector set-up.** The GDML auxiliary-information reader, and the
  attachment of biasing operators to logical volumes.
- **Primary generation.** The post-processing of primary vertices, and the
  multi-particle gun.
- **Track and event information.** The tracking and stacking actions, and the
  per-track and per-event user information.
- **Cross-section biasing.** The operator base classes, and the five
  operators: photo-nuclear, dark brem, neutron inelastic, K0-long inelastic and
  gamma-to-muon-pair.

Every operation is a pure function over immutable datatypes, or a method with
a loop. Errors are the `Err` case of a `Result`. Each error carries the
category string of the exception the source throws.

Three kinds of thing the code cannot see become parameters:

- **Mathematical oracles.** `Maths` holds `sqrt`, `atan2`, `asin`, `sin`,
  `cos` and `rotateUz`; callers state the laws they rely on. `Integrals`
  holds the two numerical integrals. `Evaluators` holds `atoi`, `atof` and
  the expression evaluator.
- **Random draws.** A function `uniform: nat -> real`, or a sequence of
  Poisson draws.
- **The environment.** The directory listing, the LHE row parser, the
  Geant4 command interpreter and the process managers' biasing data.

## Model

| member | source | states |
|---|---|---|
| DarkBrem.ParseMethod | src/g4fire/darkbrem/DarkBremVertexLibraryModel.cxx:28-39 | only the three names "forward_only", "cm_scaling" and "undefined" name a method |
| DarkBrem.ParseMethodName | ldmx/DarkBrem/DarkBremVertexLibraryModel.h:342-350 | every method is recognised by exactly its own name, so the names and the enumeration are in one-to-one correspondence |
| DarkBrem.Construct | src/g4fire/darkbrem/DarkBremVertexLibraryModel.cxx:25-50 | the constructor reads the method, threshold, epsilon and library path. It raises the threshold to at least twice the A' mass, fails on an unknown method name, and loads a well-formed library whose resampling budget is its smallest bin size. It succeeds exactly when all four reads and the library load succeed, and otherwise fails with the error of the first that fails, in source order |
| DarkBrem.XMaxByLargerMass | src/g4fire/darkbrem/DarkBremVertexLibraryModel.cxx:120-125 | the upper limit of the energy fraction x is one minus the larger of the A' and electron masses, relative to the energy |
| DarkBrem.ChiQueryFor | src/g4fire/darkbrem/DarkBremVertexLibraryModel.cxx:93-94 | the t-integration range runs from MA^4/(4 E0^2) to MA^2 |
| DarkBrem.CrossSectionPerAtom | src/g4fire/darkbrem/DarkBremVertexLibraryModel.cxx:67-153 | the cross section is never negative, and it is zero below 1 keV and below the threshold |
| DarkBrem.CrossSectionAboveCuts | src/g4fire/darkbrem/DarkBremVertexLibraryModel.cxx:143-150 | above the cuts, the cross section is the product of the constants and the two integrals over the model's limits, clamped at zero |
| DarkBrem.CrossSectionScalesAsEpsilonSquared | src/g4fire/darkbrem/DarkBremVertexLibraryModel.cxx:143-147 | scaling the mixing strength by k scales the cross section by k^2 |
| DarkBrem.NoCrossSectionBelowPairThreshold | src/g4fire/darkbrem/DarkBremVertexLibraryModel.cxx:41-44 | a constructed model gives no cross section below twice the A' mass |
| FourVector.Pt | ldmx/DarkBrem/DarkBremVertexLibraryModel.h:269-271 | pt is non-negative and its square is px^2 + py^2 |
| FourVector.Phi | ldmx/DarkBrem/DarkBremVertexLibraryModel.h:277-288 | the azimuth is 0 on the z axis, ±pi/2 on the y axis, and atan2(y, x) elsewhere |
| FourVector.PhiIsAtan2 | ldmx/DarkBrem/DarkBremVertexLibraryModel.h:277-288 | for an atan2 that follows the C99 axis rules, the special cases change nothing: Phi is atan2(y, x) on every vector |
| FourVector.BoostVector | ldmx/DarkBrem/DarkBremVertexLibraryModel.h:292-295 | the frame velocity times the energy gives back the momentum |
| FourVector.BoostVectorSubluminal | ldmx/DarkBrem/DarkBremVertexLibraryModel.h:292-295 | the frame of a time-like momentum moves slower than light, so a boost by it is defined |
| FourVector.Gamma | ldmx/DarkBrem/DarkBremVertexLibraryModel.h:299-313 | the Lorentz factor of a subluminal velocity is positive |
| FourVector.GammaFacts | ldmx/DarkBrem/DarkBremVertexLibraryModel.h:299-313 | gamma^2 (1 - b^2) = 1. The guarded gamma2 coefficient satisfies gamma2 b^2 = gamma - 1, and both are trivial at b = 0 |
| FourVector.BoostByZero | ldmx/DarkBrem/DarkBremVertexLibraryModel.h:299-313 | boosting by the zero velocity is the identity |
| FourVector.Boost | ldmx/DarkBrem/DarkBremVertexLibraryModel.h:299-313 | a boost by a subluminal velocity preserves the invariant mass w^2 - \|p\|^2 |
| FourVector.BoostInverse | ldmx/DarkBrem/DarkBremVertexLibraryModel.h:299-313 | boosting by -b and then by b gives back the original four-vector |
| VertexLibrary.MassMismatchIsRelative | src/g4fire/darkbrem/DarkBremVertexLibraryModel.cxx:405-412 | the cleared form of the mass check agrees with the source's relative test \|1 - aM/ma\| > 1e-3 wherever the division is defined |
| VertexLibrary.Vertex | src/g4fire/darkbrem/DarkBremVertexLibraryModel.cxx:413-423 | a stored vertex has the beam energy as its key, and the electron plus the A' as its centre-of-momentum four-vector |
| VertexLibrary.ScanFrom | src/g4fire/darkbrem/DarkBremVertexLibraryModel.cxx:381-425 | the scan fails only with "BadMGEvnt", and every vertex it reads uses up five lines of what remains |
| VertexLibrary.ScanLhe | src/g4fire/darkbrem/DarkBremVertexLibraryModel.cxx:367-425 | parsing a file yields at most one vertex per five lines, each from an electron, electron, A' triple with the model's mass. A failure is "BadMGEvnt" and points at a triple whose A' mass is wrong. Conversely, any triple the scan reaches with a wrong A' mass makes the file fail, and any reached triple of the right mass is stored |
| VertexLibrary.NextScan | src/g4fire/darkbrem/DarkBremVertexLibraryModel.cxx:381-403 | the scan always moves forward, by one line past a non-electron, three past a missing final electron, and five past an event |
| VertexLibrary.ScanThrowsOnReachedMismatch | src/g4fire/darkbrem/DarkBremVertexLibraryModel.cxx:405-412 | an A' more than a thousandth of the mass away from the model's, on an event the scan reaches, raises "BadMGEvnt" |
| VertexLibrary.ScanKeepsReachedTriple | src/g4fire/darkbrem/DarkBremVertexLibraryModel.cxx:413-423 | an event the scan reaches whose A' has the right mass is stored, as the vertex of its beam electron, electron and A' |
| VertexLibrary.ScanFromStep | src/g4fire/darkbrem/DarkBremVertexLibraryModel.cxx:381-425 | the scan from a line fails when the scan from its next position does, and otherwise adds at most one vertex in front of it |
| VertexLibrary.ScanFromMismatch | src/g4fire/darkbrem/DarkBremVertexLibraryModel.cxx:405-412 | an event at the scan's position whose A' has the wrong mass raises "BadMGEvnt" |
| VertexLibrary.ScanFromMatch | src/g4fire/darkbrem/DarkBremVertexLibraryModel.cxx:413-423 | an event of the right mass at the scan's position puts its vertex in front of the rest of the file's vertices |
| VertexLibrary.ScanBlocks | src/g4fire/darkbrem/DarkBremVertexLibraryModel.cxx:381-425 | a file of k five-line events of the right mass yields exactly their k vertices, in file order |
| VertexLibrary.ScanBlocksFrom | src/g4fire/darkbrem/DarkBremVertexLibraryModel.cxx:381-425 | from the start of block c, such a file yields the vertices of blocks c to k - 1, in order |
| VertexLibrary.ScanBlocksStep | src/g4fire/darkbrem/DarkBremVertexLibraryModel.cxx:413-423 | a matching block goes in front of the vertices of the blocks after it |
| VertexLibrary.ScanSound | src/g4fire/darkbrem/DarkBremVertexLibraryModel.cxx:386-423 | every vertex read comes from an initial-electron, final-electron, A' triple whose A' has the model's mass |
| VertexLibrary.ScanFailsOnlyOnMass | src/g4fire/darkbrem/DarkBremVertexLibraryModel.cxx:405-412 | the only failure of parsing a file is "BadMGEvnt", and it happens only at a triple whose A' mass does not match |
| VertexLibrary.ScanWithoutBeamElectron | src/g4fire/darkbrem/DarkBremVertexLibraryModel.cxx:386-390 | a file without an incoming-electron line yields no vertices and no error |
| VertexLibrary.Insert | ldmx/DarkBrem/DarkBremVertexLibraryModel.h:387 | inserting into the energy-keyed map keeps its keys strictly ascending |
| VertexLibrary.InsertLookup | src/g4fire/darkbrem/DarkBremVertexLibraryModel.cxx:423 | pushing a vertex appends it to its own energy's bin and leaves every other bin unchanged |
| VertexLibrary.InsertEnergies | src/g4fire/darkbrem/DarkBremVertexLibraryModel.cxx:423 | pushing a vertex adds its energy to the map's keys and no other key |
| VertexLibrary.Build | ldmx/DarkBrem/DarkBremVertexLibraryModel.h:387 | a library built by pushing vertices is ordered, and each of its bins is non-empty and holds only vertices of its own energy |
| VertexLibrary.BuildLookup | ldmx/DarkBrem/DarkBremVertexLibraryModel.h:387 | each bin holds exactly the vertices read at its energy, in reading order |
| VertexLibrary.BuildEnergies | ldmx/DarkBrem/DarkBremVertexLibraryModel.h:387 | the library's keys are exactly the beam energies that were read |
| VertexLibrary.Extension | src/g4fire/darkbrem/DarkBremVertexLibraryModel.cxx:305 | the extension is a '.'-free suffix of the path |
| VertexLibrary.IsLheFileEndsWithLhe | src/g4fire/darkbrem/DarkBremVertexLibraryModel.cxx:305 | on a path with a directory part, the extension test accepts exactly the paths ending in ".lhe" |
| VertexLibrary.ScanEntriesFound | src/g4fire/darkbrem/DarkBremVertexLibraryModel.cxx:300-313 | the directory loop fails only with "LHEFile" or "BadMGEvnt". It reports a file found exactly when some entry is an .lhe file |
| VertexLibrary.LoadBins | src/g4fire/darkbrem/DarkBremVertexLibraryModel.cxx:291-331 | a loaded library is ordered, and its bins are keyed by their vertices' energies. It holds exactly the binned vertices of its directory's .lhe files, which must include at least one. Any error of the directory loop is passed on, and loading fails only with "DirDNE", "LHEFile" or "BadMGEvnt" |
| VertexLibrary.ScanEntriesIncludesFile | src/g4fire/darkbrem/DarkBremVertexLibraryModel.cxx:300-313 | after a successful directory loop, every .lhe entry was opened and parsed, and all of its vertices are among those scanned |
| VertexLibrary.DirDneExactly | src/g4fire/darkbrem/DarkBremVertexLibraryModel.cxx:314-320 | loading fails with "DirDNE" exactly when the directory does not open or holds no .lhe entry |
| VertexLibrary.EmptyLheFileIsFound | src/g4fire/darkbrem/DarkBremVertexLibraryModel.cxx:314-320 | an .lhe file holding no event still counts as found, and gives an empty library rather than "DirDNE" |
| VertexLibrary.StartCursor | src/g4fire/darkbrem/DarkBremVertexLibraryModel.cxx:439-441 | a starting cursor drawn in [0, 1) lies inside a non-empty bin |
| VertexLibrary.MinSize | src/g4fire/darkbrem/DarkBremVertexLibraryModel.cxx:435-444 | the resampling budget is the smallest bin size, capped at 10000 |
| VertexLibrary.MakePlaceholders | src/g4fire/darkbrem/DarkBremVertexLibraryModel.cxx:435-444 | every bin gets a cursor inside it, and the budget becomes the capped minimum bin size |
| VertexLibrary.SelectFrom | src/g4fire/darkbrem/DarkBremVertexLibraryModel.cxx:453-460 | the map loop stops at the first energy strictly above E0, or at the last entry |
| VertexLibrary.SelectBin | src/g4fire/darkbrem/DarkBremVertexLibraryModel.cxx:453-460 | the bin drawn from is the first whose energy is strictly above E0, or the last bin |
| VertexLibrary.SelectBinIsNextAbove | src/g4fire/darkbrem/DarkBremVertexLibraryModel.cxx:453-460 | on an ordered library, the chosen bin has the smallest energy strictly above E0, or the largest energy when there is none |
| VertexLibrary.Sample | src/g4fire/darkbrem/DarkBremVertexLibraryModel.cxx:446-479 | it returns the vertex under the chosen bin's cursor, wrapping the cursor first, and advances only that cursor. An empty library or bin is an error |
| VertexLibrary.SampleManyDrawn | src/g4fire/darkbrem/DarkBremVertexLibraryModel.cxx:467-476 | n calls in a row read n consecutive vertices of the bin, wrapping after the last |
| VertexLibrary.SampleManySnoc | src/g4fire/darkbrem/DarkBremVertexLibraryModel.cxx:447-478 | one call more appends its vertex to the reads so far, and its library is the one returned |
| VertexLibrary.DrawnCycle | src/g4fire/darkbrem/DarkBremVertexLibraryModel.cxx:467-470 | a full cycle from any position reads the bin rotated to that position, which is a permutation of the bin |
| VertexLibrary.SampleCycle | src/g4fire/darkbrem/DarkBremVertexLibraryModel.cxx:446-479 | as many calls as the bin holds vertices return each of its vertices exactly once |
| DarkBremChange.ScaledEnergyAtSource | src/g4fire/darkbrem/DarkBremVertexLibraryModel.cxx:171-173 | at the energy the vertex was generated at, the scaled electron energy is the library energy |
| DarkBremChange.ScaledEnergyFixesRestElectron | src/g4fire/darkbrem/DarkBremVertexLibraryModel.cxx:171-173 | an electron at rest in the library stays at rest after scaling |
| DarkBremChange.ScaledEnergy | src/g4fire/darkbrem/DarkBremVertexLibraryModel.cxx:171-173 | the scaled kinetic energy is to the incident energy above the pair threshold as the library kinetic energy is to the library energy above it: (EAcc - m_e)(E_lib - m_e - m_A) = (e_lib - m_e)(E0 - m_e - m_A) |
| DarkBremChange.LibraryRecoil | src/g4fire/darkbrem/DarkBremVertexLibraryModel.cxx:171-204 | the forward-only recoil has the scaled energy and keeps the library pt and azimuth. Its momentum satisfies P^2 = EAcc^2 - m_e^2 wherever that is physical |
| DarkBremChange.UnscaledRecoil | src/g4fire/darkbrem/DarkBremVertexLibraryModel.cxx:234-240 | the undefined method takes the library electron's energy, pt and azimuth as they are |
| DarkBremChange.CmBoosted | src/g4fire/darkbrem/DarkBremVertexLibraryModel.cxx:210-221 | boosting the library electron into its electron+A' frame and out of the frame shifted to the incident energy keeps its invariant mass |
| DarkBremChange.CmScaledRecoil | src/g4fire/darkbrem/DarkBremVertexLibraryModel.cxx:205-233 | the cm-scaled recoil carries the scaled energy and the library azimuth. Its pt and momentum are those of the library electron after the two boosts |
| DarkBremChange.CmScalingAtSourceEnergy | src/g4fire/darkbrem/DarkBremVertexLibraryModel.cxx:205-233 | at the library's own energy the two boosts cancel, so cm scaling gives back the library electron |
| DarkBremChange.ForwardOnlySample | src/g4fire/darkbrem/DarkBremVertexLibraryModel.cxx:179-204 | it fails only on an empty library. The vertex is the (resamples+1)-th consecutive draw from the chosen bin, every earlier draw was rejected, and the library returned is the one after those draws. Either the last scaled electron is physical or the counter has passed the budget |
| DarkBremChange.ForwardRunStarts | src/g4fire/darkbrem/DarkBremVertexLibraryModel.cxx:168-181 | the first draw is a run with nothing rejected before it |
| DarkBremChange.ForwardRunExtends | src/g4fire/darkbrem/DarkBremVertexLibraryModel.cxx:181-194 | after a rejected draw, the next draw from the returned library extends the run by one |
| DarkBremChange.SetMag | src/g4fire/darkbrem/DarkBremVertexLibraryModel.cxx:248-259 | a zero vector cannot be stretched and stays as it is |
| DarkBremChange.SetMagLength | src/g4fire/darkbrem/DarkBremVertexLibraryModel.cxx:248-259 | a non-zero vector stretched to m has length m |
| DarkBremChange.UnitLength | src/g4fire/darkbrem/DarkBremVertexLibraryModel.cxx:264 | the direction of a non-zero vector has length 1 |
| DarkBremChange.RecoilMomentum | src/g4fire/darkbrem/DarkBremVertexLibraryModel.cxx:248-259 | the recoil momentum has the magnitude the accepted energy gives an electron, P^2 = EAcc^2 - m_e^2, whenever that is physical and the rotated direction is non-zero |
| DarkBremChange.DrawRecoil | src/g4fire/darkbrem/DarkBremVertexLibraryModel.cxx:168-240 | it succeeds exactly on a non-empty library. Forward-only gives a run of consecutive draws ending at an accepted one or past the budget. Cm-scaling and undefined take a single draw, cm-scaled or unscaled |
| DarkBremChange.Change | src/g4fire/darkbrem/DarkBremVertexLibraryModel.cxx:261-288 | the A' takes the incident momentum minus the recoil. By default the track is killed and a new electron carries the recoil; otherwise the track goes on along the recoil with kinetic energy EAcc - m_e |
| DarkBremChange.GenerateChange | src/g4fire/darkbrem/DarkBremVertexLibraryModel.cxx:155-289 | it succeeds exactly on a non-empty library. The vertex is from the chosen bin and is drawn and scaled as the configured method says. The recoil momentum is taken about the incident direction, and the particle change is built from it |
| LheEvent.FindLine | src/g4fire/lhe/LHEEvent.cxx:13-17 | it finds the first line equal to the tag at or after the start, or reports the end of the stream |
| LheEvent.NewParticle | src/g4fire/lhe/LHEEvent.cxx:34 | a particle is built from its line with its MOTHUP entries and no linked mothers |
| LheEvent.Step | src/g4fire/lhe/LHEEvent.cxx:29-60 | a body line fails with "TokenNum" exactly when it is a vertex record without 4 or 5 tokens. A non-record line leaves the vertex alone, and a comment adds no particle |
| LheEvent.Body | src/g4fire/lhe/LHEEvent.cxx:29-61 | the only error of the body loop is "TokenNum" |
| LheEvent.Link | src/g4fire/lhe/LHEEvent.cxx:63-67 | linking keeps every particle's line and MOTHUP entries, and keeps the number of particles |
| LheEvent.Load | src/g4fire/lhe/LHEEvent.cxx:12-68 | the stream moves forward and the only error is "TokenNum" |
| LheEvent.LoadWithoutEvent | src/g4fire/lhe/LHEEvent.cxx:14-17 | without an `<event>` line ahead, load consumes the stream and changes nothing |
| LheEvent.BodyOutcome | src/g4fire/lhe/LHEEvent.cxx:29-61 | the body fails exactly when a line is a malformed vertex record. Otherwise it adds one particle per '#'-free line, in file order |
| LheEvent.BodyKeepsVertex | src/g4fire/lhe/LHEEvent.cxx:35-60 | a body without vertex records keeps the vertex and time |
| LheEvent.BodyLastVertexWins | src/g4fire/lhe/LHEEvent.cxx:54-59 | the last vertex record sets the vertex. Its fifth token, if there is one, sets the time |
| LheEvent.LoadEvent | src/g4fire/lhe/LHEEvent.cxx:12-68 | a loaded event has the header from the line after `<event>`, the vertex reset to zero unless a record sets it, and the particles appended in order and relinked. Reading resumes after `</event>` |
| LheEvent.LinkedMothers | src/g4fire/lhe/LHEEvent.cxx:63-67 | a positive MOTHUP m links particle m - 1, counting from 1. Other entries leave the mother unset |
| LheEvent.LinkIdempotent | src/g4fire/lhe/LHEEvent.cxx:63-67 | relinking changes nothing |
| TrackMap.Insert | ldmx/TrackMap.cxx:8-12 | it records the track's origin, replacing any older record, and lists the track once more under its parent. Nothing else changes |
| TrackMap.InCalorimeterRegion | ldmx/TrackMap.cxx:108-111 | a region counts as calorimeter when its name contains "Calorimeter". So every name starting with it counts, and no shorter name does |
| TrackMap.Clear | ldmx/TrackMap.cxx:102-106 | clearing empties both maps |
| TrackMap.FindIncident | ldmx/TrackMap.cxx:14-30 | it returns an incident track, meaning one that started outside the calorimeter or is a primary. An unknown ID is "out_of_range", and an incident ID is its own answer |
| TrackMap.FindIncidentIsNearestAncestor | ldmx/TrackMap.cxx:17-28 | the answer is reached by following parents through tracks that started inside the calorimeter |
| TrackMap.FindIncidentTerminates | ldmx/TrackMap.cxx:17-28 | when parents have smaller IDs than their children, as Geant4 numbers them, the walk ends within id steps |
| TrackMap.InsertKeepsParentsFirst | ldmx/TrackMap.cxx:8-12 | inserting a track whose parent is already recorded keeps parents ahead of their children |
| TrackMap.FindIncidentAfterClear | ldmx/TrackMap.cxx:102-106 | after clearing, every lookup is out of range |
| SimCalorimeterHit.AddContrib | src/g4fire/event/SimCalorimeterHit.cxx:37-52 | it appends one entry to each contribution vector, adds the energy, and keeps the earliest non-zero time |
| SimCalorimeterHit.AddContribKeepsValid | src/g4fire/event/SimCalorimeterHit.cxx:46 | the hit energy stays the sum of its contribution energies |
| SimCalorimeterHit.GetContrib | src/g4fire/event/SimCalorimeterHit.cxx:54-65 | reading contribution i fails with "out_of_range" exactly when i is outside one of the vectors |
| SimCalorimeterHit.GetAddedContrib | src/g4fire/event/SimCalorimeterHit.cxx:37-65 | the contribution just added is read back whole |
| SimCalorimeterHit.FindContribIndex | src/g4fire/event/SimCalorimeterHit.cxx:67-75 | it returns the first contribution from the given track and species, and -1 exactly when there is none |
| SimCalorimeterHit.UpdateContrib | src/g4fire/event/SimCalorimeterHit.cxx:77-83 | the energy is added to contribution i and to the hit, contribution i keeps the earlier time, and the other contributions are unchanged |
| SimCalorimeterHit.UpdateContribKeepsValid | src/g4fire/event/SimCalorimeterHit.cxx:77-83 | after an update, the hit energy is still the sum of the contributions |
| SimCalorimeterHit.Clear | src/g4fire/event/SimCalorimeterHit.cxx:5-20 | clearing leaves no contributions and every numeric field zero |
| SimCalorimeterHit.FilledHit | src/g4fire/event/SimCalorimeterHit.cxx:37-65 | filling a hit from contributions keeps them in order, readable one by one, with the hit energy as their sum |
| SimCalorimeterHit.FilledHitTime | src/g4fire/event/SimCalorimeterHit.cxx:48-50 | with positive times, a hit filled after clearing has the earliest contribution's time |
| SimParticle.Code | include/g4fire/event/SimParticle.h:22-36 | the enumeration values are 0 to 11, and 0 is exactly `unknown` |
| SimParticle.CodeInjective | include/g4fire/event/SimParticle.h:22-36 | no two process types share a value |
| SimParticle.ProcessMapIsNames | src/g4fire/event/SimParticle.cxx:7-33 | the map holds exactly the eleven named types, each under its own Geant4 name |
| SimParticle.Unwrap | src/g4fire/event/SimParticle.cxx:109-112 | the unwrapped name is shorter than the wrapped one, or empty |
| SimParticle.FindProcessType | src/g4fire/event/SimParticle.cxx:108-118 | an unwrapped name has a known type exactly when the map holds it |
| SimParticle.FindProcessTypeByName | src/g4fire/event/SimParticle.cxx:108-118 | every named type is found under its name |
| SimParticle.BiasWrapperClassifiesLikeWrapped | src/g4fire/event/SimParticle.cxx:109-112 | "biasWrapper(p)" classifies like p |
| SimParticle.Clear | src/g4fire/event/SimParticle.cxx:39-63 | every field goes back to its initial value except the process type |
| SimParticle.ClearIsDefault | src/g4fire/event/SimParticle.cxx:39-63 | a cleared particle is a default particle carrying the old process type, and clearing is idempotent |
| SimTrackerHit.Clear | src/g4fire/event/SimTrackerHit.cxx:5-21 | clearing zeroes every field except the track ID, which becomes -1 |
| SimTrackerHit.ClearVersusDefault | include/g4fire/event/SimTrackerHit.h:226 | a cleared hit differs from a constructed one, whose track ID is 0. Clearing is idempotent and forgets the hit |
| SimTrackerHit.BeforeIsStrictWeakOrder | include/g4fire/event/SimTrackerHit.h:167-169 | ordering hits by time is a strict weak order, and hits are equivalent exactly when their times are equal |
| Parameters.SetAll | include/g4fire/Parameters.h:33-35 | the whole mapping is replaced, so exactly the given names exist |
| Parameters.Set | include/g4fire/Parameters.h:45-54 | only an existing name may be overwritten, and "NonExistParam" is raised otherwise. The other entries are unchanged |
| Parameters.Add | include/g4fire/Parameters.h:65-74 | only a new name may be added, and "ParameterExist" is raised otherwise. The other entries are unchanged |
| Parameters.Get | include/g4fire/Parameters.h:99-120 | it succeeds exactly for a present name stored with the requested type. Otherwise it fails with "NonExistParam" or "BadTypeParam" |
| Parameters.GetOr | include/g4fire/Parameters.h:129-136 | an absent name gives the default, and a present name is read as by get |
| Parameters.GetString | include/g4fire/Parameters.h:99-120 | the string reader succeeds exactly when get<string> does, and returns the stored string |
| Parameters.GetInt | include/g4fire/Parameters.h:99-120 | the int reader succeeds exactly when get<int> does, and returns the stored int |
| Parameters.GetDouble | include/g4fire/Parameters.h:99-120 | the double reader succeeds exactly when get<double> does, and returns the stored double |
| Parameters.GetBool | include/g4fire/Parameters.h:99-120 | the bool reader succeeds exactly when get<bool> does, and returns the stored bool |
| Parameters.GetStrings | include/g4fire/Parameters.h:99-120 | the string-list reader succeeds exactly when get<vector<string>> does, and returns the stored list |
| Parameters.GetDoubles | include/g4fire/Parameters.h:99-120 | the double-list reader succeeds exactly when get<vector<double>> does, and returns the stored list |
| Parameters.GetParameters | include/g4fire/Parameters.h:99-120 | the nested reader succeeds exactly when get<Parameters> does, and returns the stored parameters |
| Parameters.GetParametersList | include/g4fire/Parameters.h:99-120 | the nested-list reader succeeds exactly when get<vector<Parameters>> does, and returns the stored list |
| Parameters.Defaulted | include/g4fire/Parameters.h:129-136 | the typed reader with a default gives the default for an absent name, and otherwise the reader's result |
| Parameters.GetAfterSet | include/g4fire/Parameters.h:45-54 | reading a name back gives what was set, and other names read as before |
| Parameters.GetAfterAdd | include/g4fire/Parameters.h:65-74 | reading a name back gives what was added, and other names read as before |
| Parameters.SetAddComplementary | include/g4fire/Parameters.h:45-74 | set and add succeed on complementary sets of names, and both store the value |
| Parameters.Keys | include/g4fire/Parameters.h:143-148 | keys lists every name once, in strictly increasing order |
| Parameters.StrictlySortedUnique | include/g4fire/Parameters.h:143-148 | the map order fixes the listing: two sorted listings of one key set are equal |
| PyParameters.Mro | python/g4fire/cfg/_parameters.py:43 | every class's MRO ends in object |
| PyParameters.Init | python/g4fire/cfg/_parameters.py:21-24 | the attributes are the keyword arguments plus class_name, which is set to the given value |
| PyParameters.SetAttr | python/g4fire/cfg/_parameters.py:26-49 | an assignment succeeds exactly for an existing attribute whose value is None or whose type the new value is an instance of. Otherwise it raises AttributeError, and the other attributes are unchanged |
| PyParameters.SameTypeAccepted | python/g4fire/cfg/_parameters.py:42-45 | a value of the attribute's own type is always accepted |
| PyParameters.ClassNameStaysString | python/g4fire/cfg/_parameters.py:21-45 | a string class_name accepts only str instances |
| PyParameters.NamesFixed | python/g4fire/cfg/_parameters.py:48-49 | no sequence of assignments adds or removes an attribute name |
| PyParameters.CheckFollowsCurrentType | python/g4fire/cfg/_parameters.py:43 | the check is against the current value's type: an int attribute takes a bool, after which it rejects a plain int |
| Simulator.Allowed | src/g4fire/Simulator.cxx:357-366 | a command is allowed exactly when it contains none of the invalid substrings |
| Simulator.ForbiddenStaysForbidden | src/g4fire/Simulator.cxx:357-366 | a forbidden command stays forbidden whatever it is glued to |
| Simulator.InvalidCommandsForbidden | src/g4fire/Simulator.cxx:30-37 | each invalid substring is itself forbidden |
| Simulator.PreInit | src/g4fire/Simulator.cxx:88-108 | the pre-init commands pass exactly when each is allowed and Geant4 accepts it. Otherwise "PreInitCmd" is raised |
| Simulator.PostInit | src/g4fire/Simulator.cxx:110-118 | the post-init commands pass exactly when each is allowed. Otherwise "PostInitCmd" is raised |
| Simulator.ReadHead | src/g4fire/Simulator.cxx:45-86 | the verbosity and logging prefix are read with their defaults, then the detector's class and each sensitive detector's class |
| Simulator.ReadCommands | src/g4fire/Simulator.cxx:88-118 | both command lists pass exactly when every pre-init command is allowed and accepted and every post-init command is allowed. A bad pre-init list is "PreInitCmd" before the post-init list is read, and then a forbidden post-init command is "PostInitCmd" |
| Simulator.Construct | src/g4fire/Simulator.cxx:39-159 | a constructed simulator keeps the configured command lists, all allowed and the pre-init ones accepted, at least one generator and the configured reference physics list. The first failing read wins. Once the reads before them succeed, a bad command list gives its own error, and an empty generator list gives "MissingGenerator" |
| Simulator.ForbiddenCommandRejected | src/g4fire/Simulator.cxx:88-118 | a configuration listing a forbidden command never builds. Once the reads before the lists succeed, it fails with "PreInitCmd" for the pre-init list, and with "PreInitCmd" or "PostInitCmd" otherwise |
| Simulator.AttachActions | src/g4fire/Simulator.cxx:144-155 | each dispatcher receives exactly the actions that list its kind, in configuration order |
| Simulator.SetSeeds | src/g4fire/Simulator.cxx:368-389 | no seeds leave the engine alone, and a single seed is "ConfigurationException". Otherwise the seeds go at the front of 100 zero-padded slots |
| Simulator.NewRunSeeds | src/g4fire/Simulator.cxx:204-211 | the two seeds of a new run always seed the engine |
| Simulator.Dump | src/g4fire/Simulator.cxx:167-173 | the dump adds one key per entry, "name 1" to "name n", to the header |
| Simulator.DumpRecordsEach | src/g4fire/Simulator.cxx:167-173 | entry i is stored under its own number, and none overwrites another |
| Simulator.DumpKeepsOthers | src/g4fire/Simulator.cxx:167-173 | an entry the list is not recorded under keeps its value |
| Simulator.RunHeaderKeysDistinct | src/g4fire/Simulator.cxx:175-177 | the pre-init, post-init and physics-list keys never coincide |
| Simulator.DumpTwiceKeepsFirst | src/g4fire/Simulator.cxx:175-176 | the pre-init entries survive the post-init dump |
| Simulator.DumpBoth | src/g4fire/Simulator.cxx:167-176 | after both dumps each list sits under its own numbers, and every other entry is unchanged |
| Simulator.RunHeader | src/g4fire/Simulator.cxx:175-177 | the header records pre-init command i under "Pre Init Command i", post-init command i under "Post Init Command i" and the reference physics list. It adds exactly those keys and keeps every other entry |
| DetectorConstruction.SelectTest | src/g4fire/DetectorConstruction.cxx:134-150 | the name-contains fallback is chosen exactly for a name outside the five known ones |
| DetectorConstruction.IsInEcal | src/g4fire/DetectorConstruction.cxx:22-28 | an ECal volume's name contains "volume". Without silicon or tungsten in the name, it names a PCB, carbon-fibre or aluminium layer |
| DetectorConstruction.IsInHcal | src/g4fire/DetectorConstruction.cxx:38-43 | an HCal volume's name contains "volume" and names an absorber or a scintillator box |
| DetectorConstruction.IsInEcalOld | src/g4fire/DetectorConstruction.cxx:56-60 | every volume the old ECal test accepts, the current one accepts too |
| DetectorConstruction.IsInTargetRegion | src/g4fire/DetectorConstruction.cxx:70-74 | a volume outside every region is never in the target region. Otherwise the test is the target-name test applied to the region's name |
| DetectorConstruction.IsInTargetOnly | src/g4fire/DetectorConstruction.cxx:86-89 | the target test is the name-contains test for "target" |
| DetectorConstruction.EcalWiderThanOld | src/g4fire/DetectorConstruction.cxx:22-68 | the current ECal test also accepts PCB layers, which the old one does not |
| DetectorConstruction.TargetTests | src/g4fire/DetectorConstruction.cxx:70-101 | "target" tests the volume name, and "target_region" tests the region name |
| DetectorConstruction.AttachedVolumes | src/g4fire/DetectorConstruction.cxx:152-160 | an operator is attached to exactly the store's volumes that pass its test |
| DetectorConstruction.Attachments | src/g4fire/DetectorConstruction.cxx:127-163 | the pair (operator i, volume v) is attached exactly when v passes operator i's test |
| PluginFactory.Register | src/g4fire/PluginFactory.cxx:20-31 | registering a name twice fails. A new name maps to its builder, and the others are unchanged |
| PluginFactory.RegisterGenerator | src/g4fire/PluginFactory.cxx:20-31 | a duplicate is "ExistingGeneratorDefinition", and otherwise the builder is added |
| PluginFactory.CreateGenerator | src/g4fire/PluginFactory.cxx:33-50 | an unknown class is "CreateGenerator". Otherwise the built generator is appended and nothing else changes |
| PluginFactory.RegisterAction | src/g4fire/PluginFactory.cxx:64-75 | a duplicate is "ExistingActionDefinition", and otherwise the builder is added |
| PluginFactory.RegisterBiasingOperator | src/g4fire/PluginFactory.cxx:113-122 | a duplicate is "ExistingOperatorDefinition", and otherwise the builder is added |
| PluginFactory.CreateBiasingOperator | src/g4fire/PluginFactory.cxx:124-140 | an unknown class is "CreateBiasingOperator". Otherwise the built operator is appended |
| PluginFactory.CreateOperatorsInOrder | src/g4fire/PluginFactory.cxx:134-137 | operators are listed in creation order |
| PluginFactory.GetActions | src/g4fire/PluginFactory.cxx:52-62 | the five dispatchers are created on the first call only |
| PluginFactory.GetActionsTwice | src/g4fire/PluginFactory.cxx:52-62 | a second call changes nothing and returns the same map |
| PluginFactory.RegisterKindsIsAttach | src/g4fire/PluginFactory.cxx:88-106 | the kind loop attaches the kinds before the first NONE, and fails exactly when NONE is listed |
| PluginFactory.CreateAction | src/g4fire/PluginFactory.cxx:77-111 | an unknown class is "PluginFactory" before anything changes. Only the dispatchers change |
| PluginFactory.CreateActionAttaches | src/g4fire/PluginFactory.cxx:86-106 | a created action lands in each of its kinds' dispatchers once per listing, after what was there |
| ParserFactory.RegisterParser | ldmx/ParserFactory.cxx:19-21 | registering inserts or overwrites the creator, and the other names are unchanged |
| ParserFactory.Initial | ldmx/ParserFactory.cxx:17 | a fresh factory knows only "gdml" |
| ParserFactory.CreateParser | ldmx/ParserFactory.cxx:23-32 | an unregistered name is "ParserNotFound". A registered one gives the parser its creator makes from the parameters |
| ParserFactory.CreateUsesLastRegistration | ldmx/ParserFactory.cxx:19-32 | a parser is made by the creator registered last under its name |
| ParserFactory.InitialCreatesOnlyGdml | ldmx/ParserFactory.cxx:17-32 | a fresh factory creates GDML parsers and nothing else |
| UserActionKinds.AttachTypesAppends | include/g4fire/UserAction.h:24 | attaching appends the action once per listing of the kind |
| UserActionKinds.AttachAllDispatches | src/g4fire/Simulator.cxx:144-155 | each dispatcher ends with exactly the actions, in order, as often as each lists its kind. NONE gets nothing |
| AuxInfoReader.Last | src/g4fire/geo/AuxInfoReader.cxx:79-102 | it finds the last entry a key listens to, which is the reference for every last-wins setting |
| AuxInfoReader.FirstIndex | src/g4fire/geo/AuxInfoReader.cxx:240-250 | it finds the first entry a key listens to, or -1 |
| AuxInfoReader.LastOfAppend | src/g4fire/geo/AuxInfoReader.cxx:79-102 | appending an entry makes it the last one exactly when the key listens to it |
| AuxInfoReader.ReadSensDet | src/g4fire/geo/AuxInfoReader.cxx:69-102 | each sensitive-detector field is its default or the value of some entry of its own type |
| AuxInfoReader.ReadSensDetLastWins | src/g4fire/geo/AuxInfoReader.cxx:73-102 | every sensitive-detector field is its default or the value of its key's last entry |
| AuxInfoReader.FieldType | src/g4fire/geo/AuxInfoReader.cxx:239-250 | a non-empty field type comes from some "MagneticFieldType" entry |
| AuxInfoReader.ReadUniform | src/g4fire/geo/AuxInfoReader.cxx:261-282 | each field component is 0 or the evaluation of some entry of its own type |
| AuxInfoReader.ReadUniformLastWins | src/g4fire/geo/AuxInfoReader.cxx:261-282 | each component of the uniform field is the last evaluated value for it, or 0 |
| AuxInfoReader.ReadMap | src/g4fire/geo/AuxInfoReader.cxx:288-310 | the map file is "" or named by some "File" entry, and each offset is unset or evaluated from some entry of its own type |
| AuxInfoReader.ReadMapLastWins | src/g4fire/geo/AuxInfoReader.cxx:288-310 | the map file and offsets come from their last entries |
| AuxInfoReader.ReadRegion | src/g4fire/geo/AuxInfoReader.cxx:343-360 | a region stops storing trajectories only when some "StoreTrajectories" entry says "false" |
| AuxInfoReader.ReadRegionLastWins | src/g4fire/geo/AuxInfoReader.cxx:345-360 | a region stores trajectories unless its last exact "true"/"false" value is "false" |
| AuxInfoReader.ReadVis | src/g4fire/geo/AuxInfoReader.cxx:371-425 | a force flag is on only when a "Style" entry asks for it. Invisibility and invisible daughters each need an entry saying so |
| AuxInfoReader.VisNumbers | src/g4fire/geo/AuxInfoReader.cxx:388-395 | the colour and line width come from their last entries |
| AuxInfoReader.VisFlags | src/g4fire/geo/AuxInfoReader.cxx:402-413 | the visibility flags come from their last recognised value |
| AuxInfoReader.VisStyles | src/g4fire/geo/AuxInfoReader.cxx:396-421 | a style entry only switches a force flag on. The line style comes from its last recognised value |
| AuxInfoReader.ReadVisLastWins | src/g4fire/geo/AuxInfoReader.cxx:373-425 | the visualisation loop computes the last-wins reference |
| AuxInfoReader.CreateMagneticField | src/g4fire/geo/AuxInfoReader.cxx:236-341 | a missing type or file is "MissingInfo", and an unknown type is "UnknownType". A second global map is "MisAssign". Otherwise the named field is stored, and a map also becomes the global field |
| AuxInfoReader.Dispatch | src/g4fire/geo/AuxInfoReader.cxx:54-64 | a global entry is dispatched on its type, and unknown types are passed over. Only a magnetic field can fail, with one of its three errors, and a success only adds fields and attributes |
| AuxInfoReader.ReadGlobal | src/g4fire/geo/AuxInfoReader.cxx:42-67 | the pass fails only at a magnetic field, with "MissingInfo", "UnknownType" or "MisAssign". A successful pass only adds fields and attributes |
| AuxInfoReader.ReadGlobalOutcome | src/g4fire/geo/AuxInfoReader.cxx:42-67 | a successful pass appends every region in order and defines at most one field map. A map sets the global field |
| AuxInfoReader.SecondMapRefused | src/g4fire/geo/AuxInfoReader.cxx:322-327 | a second field map is refused, whatever lies between the two |
| AuxInfoReader.MapCountAtLeast | src/g4fire/geo/AuxInfoReader.cxx:288 | a list starting and ending with a map definition defines at least two maps |
| AuxInfoReader.MapCountFirst | src/g4fire/geo/AuxInfoReader.cxx:288 | a list starting with a map definition defines at least one |
| AuxInfoReader.RefKindOf | src/g4fire/geo/AuxInfoReader.cxx:168-230 | exactly four entry types refer to a named object |
| AuxInfoReader.AssignVolume | src/g4fire/geo/AuxInfoReader.cxx:158-231 | one volume's entries fail only with "MissingInfo". Everything assigned belongs to that volume and resolves |
| AuxInfoReader.AssignAll | src/g4fire/geo/AuxInfoReader.cxx:152-234 | assignment fails only with "MissingInfo". Every assignment names a volume of the store and resolves |
| AuxInfoReader.AssignVolumeOutcome | src/g4fire/geo/AuxInfoReader.cxx:158-231 | a volume's references all resolve, or the volume fails with "MissingInfo" |
| AuxInfoReader.AssignAllOutcome | src/g4fire/geo/AuxInfoReader.cxx:152-234 | assignment fails with "MissingInfo" exactly when some reference cannot be found. Otherwise every reference is assigned, in store order |
| AuxInfoReader.KnownAfter | src/g4fire/geo/AuxInfoReader.cxx:362-365 | the regions the global pass defines are findable afterwards |
| AuxInfoReader.GlobalRegionsResolve | src/g4fire/geo/AuxInfoReader.cxx:200-214 | after a successful global pass, a reference to a region that pass created resolves in the volume pass |
| UserEventInformation.Apply | include/g4fire/UserEventInformation.h:24-97 | each mutator sets, increments or adds to its own field, and changes nothing else |
| UserEventInformation.HistoryFromFresh | include/g4fire/UserEventInformation.h:24-97 | from a fresh record, any history gives: candidates equal to increments minus decrements, the weight of the last set times the later factors, the energy totals as sums, and the flags as last set |
| UserEventInformation.IncThenDec | include/g4fire/UserEventInformation.h:24-27 | an increment followed by a decrement leaves the record as it was |
| UserTrackInformation.SetSaveFlag | include/g4fire/UserTrackInformation.h:66 | the save flag is set and nothing else changes |
| UserTrackInformation.TagBremCandidate | include/g4fire/UserTrackInformation.h:81-83 | the brem-candidate tag is set and nothing else changes |
| UserTrackInformation.TagPNGamma | include/g4fire/UserTrackInformation.h:101 | the PN-gamma tag is set and nothing else changes |
| UserTrackInformation.Initialize | src/g4fire/UserTrackInformation.cxx:14-18 | the vertex kinematics are copied from the track, and the flags stay |
| UserTrackInformation.Get | src/g4fire/UserTrackInformation.cxx:7-12 | it returns the attached record, or attaches a fresh one. The slot is never empty afterwards |
| UserTrackInformation.GetTwice | src/g4fire/UserTrackInformation.cxx:7-12 | a second get sees what the first one attached |
| UserTrackInformation.InitializeKeepsTags | src/g4fire/UserTrackInformation.cxx:14-18 | initializing keeps the flags set before |
| TrackingAction.NewTrack | src/g4fire/g4user/TrackingAction.cxx:16-56 | an unseen track is initialized and inserted into the track map. Its save flag is raised by the save rule and never lowered |
| TrackingAction.Pre | src/g4fire/g4user/TrackingAction.cxx:15-62 | set-up happens for unseen tracks only, and the registered actions run afterwards |
| TrackingAction.PreNeverClearsSaveFlag | src/g4fire/g4user/TrackingAction.cxx:39-53 | the saved tracks are exactly those the rule picks, plus those already flagged |
| TrackingAction.SeenTrackSkipsSetUp | src/g4fire/g4user/TrackingAction.cxx:16 | a seen track only meets the registered actions |
| TrackingAction.Post | src/g4fire/g4user/TrackingAction.cxx:64-81 | a track is saved exactly when it is flagged and stopped-and-killed, after the registered actions |
| TrackingAction.FinalStatePrimarySaved | src/g4fire/g4user/TrackingAction.cxx:30-80 | a final-state primary that is stopped and killed is always saved |
| StackingAction.ClassifyIsChain | src/g4fire/g4user/StackingAction.cxx:6-23 | the "only if changed" test changes nothing. The result is fUrgent with no actions, and otherwise the last action's proposal |
| StackingAction.Classify | src/g4fire/g4user/StackingAction.cxx:6-23 | with no actions the class is fUrgent. Otherwise it is the last action's proposal on what the earlier ones produced, whatever the "only if changed" test says |
| StackingAction.LastActionDecides | src/g4fire/g4user/StackingAction.cxx:12-20 | a last action that always proposes the same class decides the result |
| StackingAction.Forward | src/g4fire/g4user/StackingAction.cxx:25-33 | every action receives the notice once, in registration order |
| PrimaryGeneratorAction.CreateGenerators | src/g4fire/PrimaryGeneratorAction.cxx:41-45 | entry i appends exactly the generator its class's builder makes from its instance name and parameters, after the existing ones. It fails exactly when some entry lacks a name or names an unregistered class, with the first such entry's error |
| PrimaryGeneratorAction.Construct | src/g4fire/PrimaryGeneratorAction.cxx:14-46 | smearing is on exactly for a non-empty beam_spot_delta, and the time shift defaults to true. No generators is "MissingGenerator". Otherwise the action holds the builds of the configured entries, in order, and fails exactly when one cannot be built |
| PrimaryGeneratorAction.FixStatus | src/g4fire/PrimaryGeneratorAction.cxx:84-101 | every primary ends with user information carrying a positive status. A positive status is kept, and anything else becomes 1 |
| PrimaryGeneratorAction.ProcessVertex | src/g4fire/PrimaryGeneratorAction.cxx:79-131 | statuses are fixed and the position is smeared by width times (u - 0.5). t0 is shifted by the smeared z0 over c |
| PrimaryGeneratorAction.WeightCalls | src/g4fire/PrimaryGeneratorAction.cxx:106 | there is one incWeight per vertex, in order |
| PrimaryGeneratorAction.GeneratePrimaries | src/g4fire/PrimaryGeneratorAction.cxx:48-139 | attached information is "Misconfig" and no vertices is "NoPrimaries". Otherwise every vertex is processed and the event information is attached |
| PrimaryGeneratorAction.WeightOfCalls | src/g4fire/PrimaryGeneratorAction.cxx:106 | the weight calls multiply up to the product of the vertex weights |
| PrimaryGeneratorAction.GeneratedEvent | src/g4fire/PrimaryGeneratorAction.cxx:63-131 | the event weight is the product of the vertex weights, and every primary has a positive status |
| MultiParticleGun.Configure | src/g4fire/plugins/primary_generators/MultiParticleGunPrimaryGenerator.cxx:73-95 | three-component vertex and momentum and a positive count are required, and "InvalidConfig" is raised otherwise |
| MultiParticleGun.FirstNonZero | src/g4fire/plugins/primary_generators/MultiParticleGunPrimaryGenerator.cxx:109-115 | the redraw loop returns the first non-zero draw |
| MultiParticleGun.Generate | src/g4fire/plugins/primary_generators/MultiParticleGunPrimaryGenerator.cxx:99-135 | the event is topped up to n vertices, each a gun vertex, and the existing ones are kept |
| MultiParticleGun.TopsUp | src/g4fire/plugins/primary_generators/MultiParticleGunPrimaryGenerator.cxx:118 | with Poisson off, the count ends at max(n, existing) |
| MultiParticleGun.GunPrimariesEndWithStatusOne | src/g4fire/plugins/primary_generators/MultiParticleGunPrimaryGenerator.cxx:122-130 | the gun's primaries end with status 1 and its vertices weigh 1 |
| XsecBiasing.Constructed | src/g4fire/XsecBiasingOperator.cxx:14-40 | a new operator has no process manager and no operation |
| XsecBiasing.ProcessIsBiased | src/g4fire/XsecBiasingOperator.cxx:42-61 | the scan answers true exactly when some wrapper wraps the process |
| XsecBiasing.ManagerData | src/g4fire/XsecBiasingOperator.cxx:14-25 | only the known particles have a process manager |
| XsecBiasing.XsecStartRun | src/g4fire/XsecBiasingOperator.cxx:14-40 | a wrapped process gets a fresh "changeXsec-" operation, and otherwise the operation is unchanged |
| XsecBiasing.UserStartRun | src/g4fire/user/BiasingOperator.cxx:20-42 | an unknown particle or an unwrapped process is "BiasSetup". Otherwise the operation is created |
| XsecBiasing.StartRunsAgree | src/g4fire/user/BiasingOperator.cxx:20-42 | the two base classes agree wherever the user one does not throw |
| XsecBiasing.UnknownParticleNeverBiased | src/g4fire/XsecBiasingOperator.cxx:14-25 | an unknown particle never gets an operation |
| XsecBiasing.BiasedXsec | include/SimCore/XsecBiasingOperator.h:101-105 | the shared operation gets the new cross section |
| XsecBiasing.BiasedXsecLastWins | include/SimCore/XsecBiasingOperator.h:101-105 | only the last cross section set survives |
| XsecBiasing.Declare | src/g4fire/XsecBiasingOperator.cxx:63-66 | a second declaration is "ExistingOperatorDefinition" |
| XsecBiasing.DeclareTwiceRefused | src/g4fire/PluginFactory.cxx:113-122 | a class declared once cannot be declared again |
| BiasingOperators.OperatorsTargetKnownParticles | include/g4fire/biasing/NeutronInelastic.h:29-34 | every operator's particle has a process manager, so its run set-up depends only on the wrapping |
| BiasingOperators.ParticleToBias | include/g4fire/biasing/GammaToMuPair.h:29-34 | every operator biases a particle that has a process manager, and exactly the photo-nuclear and gamma-to-muon-pair operators bias photons |
| BiasingOperators.ProcessToBias | include/g4fire/biasing/PhotoNuclear.h:25-30 | no operator but dark brem asks for the conversion process, and dark brem asks for its configured process name |
| BiasingOperators.ProcessToBiasDistinct | include/g4fire/biasing/K0LongInelastic.h:29-34 | two operators bias the same process only when they are the same operator, given a dark-brem name unlike the fixed ones |
| BiasingOperators.Scaled | src/g4fire/biasing/NeutronInelastic.cxx:24-28 | the biased cross section times the interaction length is the factor |
| BiasingOperators.ConfigureThreshold | src/g4fire/biasing/NeutronInelastic.cxx:6-12 | volume, factor and threshold are read, and a missing one fails |
| BiasingOperators.ThresholdPropose | src/g4fire/biasing/NeutronInelastic.cxx:14-33 | a track is biased exactly when it is at or above threshold and the process matches. The rate times the length is the factor |
| BiasingOperators.ConfigureDarkBrem | src/g4fire/biasing/DarkBrem.cxx:9-14 | volume, factor and bias_all are read |
| BiasingOperators.DarkBremPropose | src/g4fire/biasing/DarkBrem.cxx:16-39 | a track is biased exactly when the process matches and it is a primary or all tracks are biased |
| BiasingOperators.RecordDarkBrem | src/g4fire/biasing/DarkBrem.cxx:41-45 | three header entries are set and every other entry is kept |
| BiasingOperators.ConfigurePhotoNuclear | src/g4fire/biasing/PhotoNuclear.cxx:10-17 | the five parameters are read, in order |
| BiasingOperators.PhotoNuclearStartRun | src/g4fire/biasing/PhotoNuclear.cxx:19-30 | down-biasing an unwrapped conversion is "PhotoNuclearBiasing". A wrapped conversion gets its own operation |
| BiasingOperators.PhotoNuclearPropose | src/g4fire/biasing/PhotoNuclear.cxx:32-99 | photo-nuclear is scaled and both of its rates are remembered. Conversion is lowered by the PN gain, but never below the unbiased PN rate |
| BiasingOperators.Rate | src/g4fire/biasing/PhotoNuclear.cxx:61 | the unbiased cross section is the inverse of the interaction length |
| BiasingOperators.DownBiasKeepsTotalRate | src/g4fire/biasing/PhotoNuclear.cxx:71-95 | the biased total rate of conversion plus photo-nuclear is never below the unbiased total, and equals it unless the clamp applies |
| BiasingOperators.ThresholdAgreesWithDarkBrem | src/g4fire/biasing/K0LongInelastic.cxx:13-31 | a threshold operator at threshold 0 agrees with the dark-brem operator that biases all tracks |
| BiasingOperators.UnitFactorIsUnbiased | src/g4fire/biasing/PhotoNuclear.cxx:54-95 | with factor 1, the photo-nuclear proposal is the unbiased rate. A conversion proposal after it is the unbiased conversion rate, raised to the photo-nuclear rate when below it |
| BiasingOperators.GammaToMuPairProposal | src/g4fire/biasing/GammaToMuPair.cxx:13-31 | once the photon wraps "GammaToMuPair", a track at or above threshold stepping through that process gets "changeXsec-GammaToMuPair" with the scaled rate, and nothing else is biased |

## Left out

- I/O is left out: file streams, directory listing, printing, logging and the ROOT/fire persistence. Streams are modelled as sequences of lines, and listings as values.
- Numerical integration (odeint) and the Geant4 geometry and physics are oracles.
- Floating point is modelled as exact reals. Eigen's `float` four-vectors and the float contributions of calorimeter hits are therefore not rounded.
- `G4BOptnChangeCrossSection::Sample()` resampling of the operation is not modelled; only the biased cross section is kept.
- The `RecordConfig` of the other operators, generators and actions is not modelled. Only `DarkBrem::RecordConfig` is, and its float cast is not.
- `G4eDarkBremsstrahlung::PROCESS_NAME` is a parameter, because its value is not among the source files.
- include/g4fire/XsecBiasingOperator.h is not part of this model. `BiasedXsec` follows include/SimCore/XsecBiasingOperator.h:101-105.
- BiasingOperators.ThresholdPropose: the operation must exist on the branch that dereferences it, where the source would dereference a null pointer.
- BiasingOperators.DarkBremPropose: the operation must exist on the branch that dereferences it (a matching process on a primary, or with all tracks biased), where the source would dereference a null pointer in `BiasedXsec`.
- BiasingOperators.PhotoNuclearPropose: the operation must exist on the photo-nuclear branch, and the conversion operation on the down-biased conversion branch, where the source would dereference a null pointer.
- BiasingOperators.PhotoNuclearPropose: the clamp at the unbiased PN rate is described as behaviour, not as a bug.
- BiasingOperators.Scaled: interaction lengths are taken as positive.
- TrackMap.FindIncident: a fuel bound stands for the source's unbounded walk.
- LheEvent.Load: at EOF the header is "". getline's EOF semantics are not modelled.
- SimCalorimeterHit.UpdateContrib: requires i < count, where the source is undefined.
- PluginFactory.CreateAction: requires the dispatchers to exist.
- SimParticle.Unwrap: the npos wrap-around is modelled only for its result's length.
- Simulator.SetSeeds: requires at most 100 seeds, where the source is undefined beyond.
- Simulator.Construct: the factories' `make` is not modelled.
- DetectorConstruction.Attachments: the AttachTo rule is not modelled.
- AuxInfoReader.CreateMagneticField: the field, region and visualization store classes are not among the source files. They are modelled as maps and a sequence (the `Stores` datatype, aux_info_reader.dfy:650), where a later field or attribute added under the same name overwrites the earlier one. Sensitive-detector registration (commented out in the source) and the atoi/atof/eval oracles are left out; an offset that is never set is None.
- UserEventInformation.Apply: the brem count is not bounded to int.
- TrackingAction.NewTrack: a missing primaryStatus is modelled as None.
- PrimaryGeneratorAction.Construct: requires beam_spot_delta not to have 1 or 2 entries, which is undefined in the source.
- PrimaryGeneratorAction.CreateGenerators: an entry's `class_name` is read before its `instance_name`. The source passes both reads as arguments of one call, whose evaluation order C++ leaves unspecified, so an entry with both names bad may report the other read's error.
- MultiParticleGun.Generate: requires a non-zero Poisson draw to exist, and the Poisson mean must be positive.
- VertexLibrary.SelectFrom: the bin selection uses strictly greater, as written.
- VertexLibrary.ScanFrom: an electron or A' row counts only when all eleven fields parse. The source tests ptype and state even when a later field fails to parse, and then builds a vertex from unset momenta; that partial-parse path is not modelled.
- DarkBremChange.LibraryRecoil: requires the library energy to differ from m_e + m_A. The source divides by `data.E - Mel - MA` unguarded and would carry inf or NaN onward.
- DarkBremChange.CmScaledRecoil: requires the library energy to differ from m_e + m_A, and (FramesBoostable) both frames to be time-like with non-zero energy. The source divides unguarded and boosts by whatever velocity results, giving inf or NaN.
- DarkBremChange.ForwardOnlySample: requires Scalable, every bin's energy differing from m_e + m_A. The source's unguarded division would otherwise give an infinite or NaN energy, which the loop's `pt*pt + Mel*Mel > EAcc*EAcc` test lets through as accepted.
- DarkBremChange.DrawRecoil: requires Scalable for the scaling methods and LibraryBoostable (every vertex FramesBoostable) for cm-scaling, for the same unguarded divisions and boosts.
- DarkBremChange.GenerateChange: requires Scalable for the scaling methods and LibraryBoostable for cm-scaling. On a library outside these, the source computes with inf or NaN, and that is not modelled.
