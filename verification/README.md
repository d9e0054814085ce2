# STM32F4 driver models

Dafny models of the parts of the STM32F4 standard peripheral library where loops, shared
state and packed registers meet hardware that runs on its own, and proofs about them. The
drivers are C code working step by step on registers and buffers; the models are classes and
methods working on the same registers, proved against functions whose properties are then
proved as lemmas over all inputs, runs or hardware behaviours.

`dafny verify dfyconfig.toml` checks everything.

## The models

| files | what |
|---|---|
| `Bytes`, `Modes`, `Pigeonhole` | words and bytes; block modes as a streamed computation and as NIST SP 800-38A defines them; one-to-one functions on blocks reach every block |
| `Streaming` | the block loop on one flat memory, input and output overlapping in any way |
| `CrypControl`, `CrypCore` | CR as a word and as a record; what reading SR does to the core and the FIFOs, from any state |
| `CrypDevice` | the CRYP processor (CR, key and IV registers, FIFOs, core, BUSY with any latency) and `stm32f4xx_cryp.c` |
| `CrypDrivers`, `CrypTheorems` | the seven AES, DES and TDES drivers; what their contracts amount to; context switch |
| `CanFrame`, `CanTransmit`, `CanReceive` | frame packing; three transmit mailboxes and two receive FIFOs with the bus acting between any two register accesses |
| `CanFilter`, `CanMode` | the 28 filter banks; the mode handshakes with any sequence of MSR values |
| `Fields`, `Adc`, `Gpio`, `Dma` | w-bit fields of a word, and the three drivers that keep tables in them |

## What is assumed of the hardware

CRYP. Cipher and inverse are unknown functions of the key registers; a round trip needs
D(k, E(k, b)) = b. The IV registers hold the chaining value (IV0 alone for 64-bit blocks); a
block delivered in CBC or CTR mode writes the value computed when it was begun back to them, even
over a vector loaded since, and a block delivered in ECB mode leaves them alone. The 8-bit data
type reverses the bytes of each word between FIFO and core. CTR ignores the direction. AES ECB and
CBC decryption needs a schedule that key preparation installs and a write to the key registers
loses; what happens without it is an unknown function. An idle, enabled core takes a waiting block
at the next access to DR or SR, and delivers it at the first status read after its latency if the
OUT FIFO has room; the latency of each operation is any number of reads. Flushing the FIFOs and
clearing CRYPEN do not abort an operation that has begun.
A key preparation begins when CRYPEN goes from 0 to 1 in the key mode on an idle core.

bxCAN. The registers of an occupied transmit mailbox are write protected. Between any two
register accesses any pending frame may be sent or given up, and frames may arrive. Ones
written to RQCP, FULL and FOVR clear; a one written to ABRQ or RFOM acts. A full FIFO drops
the newcomer if locked, else replaces its last frame. A release takes effect at once. FM1R, FS1R,
FFA1R and CAN2SB can be written in filter initialisation mode only, the registers of a bank also
while it is inactive. MSR may show any value at each read.

DMA. A one written to LIFCR or HIFCR clears the pending bit at its place.

## What the proofs brought to light

- `CRYP_SaveContext` means to leave the OUT FIFO out of its check for TDES, whose mode codes are 0x0000 and
  0x0008; the test is of bit 3, which all CBC modes and the key preparation mode have. A CBC job is saved
  successfully with unread output, or with a block still in the core, and that output is lost at the next flush; an
  ECB or CTR job with a block in the core cannot be saved at all (`SaveTestsTheChain`, `SwitchOut`, `MidBlockSave`). The comments there
  (`stm32f4xx_cryp.c`, lines 480 and 484) say otherwise; the model follows the code.
- `CRYP_RestoreContext` does not prepare the key, so AES ECB and CBC decryption does not resume (`RestoreExact`, `RestoreBreaks`).
- After a time-out the block given up is still in the core, and no driver waits for it: the next call can answer SUCCESS with
  the old block's bytes first and its own result one block late (`Leaves`, `DriverStale`, `Retry`, `StaleAnswer`), or decrypt with an
  unprepared key (`EntryExact`). `DriverExact` says when a call is right: BUSY clear at the call is enough, and for
  AES ECB and CBC decryption CRYPEN clear as well.
- A message longer than 2^32 minus the block size never ends the block loop (`LoopEnds`). No length that is a multiple of the
  block size, as the documentation asks, is affected.
- Output above Input by less than the message length destroys unread input, for every cipher and mode, and no other layout does (`OverlapExact`).
- `CAN_CancelTransmit` writes back the TSR value it read, so the success of any mailbox still shown there
  is erased and then reported as a failure (`CancelErases`, `SuccessLost`).
- `CAN_TransmitStatus` answers Pending for a mailbox that does not exist, because its default state is
  decoded again.
- `CAN_Receive` and `CAN_FIFORelease` clear FULL and FOVR (`ReleaseClearsFlags`). `CAN_Receive` on an empty FIFO may
  return a mixture of the old content and a frame that arrives meanwhile, and release that frame (`Torn`, `WholeIff`,
  `Receive`).
- Configuring an injected ADC rank just above the length overwrites the length (`LengthSurvives`, `LengthLost`).
- The parameter check of `DMA_ClearFlag` rejects the codes of FEIF0 and DMEIF0 (`ClearableFlags`).

## Model

| member | source | states |
|---|---|---|
| Modes.RunMeetsStandard | 1.STM32/2、bootloader/stm32f4/src/MCU/source/stm32f4xx_cryp_aes.c:279-457 | A message streamed block by block through the chaining register is the ECB, CBC or CTR function of NIST SP 800-38A (sections 6.1, 6.2, 6.5): an output meets the standard's definition if and only if it is the streamed one; also what the IV registers hold afterwards. Every cipher, key, vector and length. What the definition is in bits and ciphers: EcbBlocks, CbcEncryptBytes, CbcDecryptBytes, CtrBytes. |
| Modes.EcbBlocks | 1.STM32/2、bootloader/stm32f4/src/MCU/source/stm32f4xx_cryp_aes.c:98-261 | ECB output block i is E(key, input block i), or D(key, input block i). |
| Modes.CbcEncryptBytes | 1.STM32/2、bootloader/stm32f4/src/MCU/source/stm32f4xx_cryp_aes.c:279-457 | CBC encryption output block i is E(key, z), where every byte of z is that of input block i xor that of output block i-1, or of the vector. |
| Modes.CbcDecryptBytes | 1.STM32/2、bootloader/stm32f4/src/MCU/source/stm32f4xx_cryp_aes.c:279-457 | Every byte of CBC decryption output block i is that of D(key, input block i) xor that of input block i-1, or of the vector. |
| Modes.CtrBytes | 1.STM32/2、bootloader/stm32f4/src/MCU/source/stm32f4xx_cryp_aes.c:475-620 | Every byte of CTR output block i is that of input block i xor that of E(key, T), T being the vector incremented i times. |
| Modes.RunSplit | 1.STM32/2、bootloader/stm32f4/src/MCU/source/stm32f4xx_cryp.c:466-575 | Processing a message in two parts, the second from the chaining value the first left, gives the output and the chaining value of one run over both. |
| Modes.RoundTrip | 1.STM32/2、bootloader/stm32f4/src/MCU/source/stm32f4xx_cryp_aes.c:98-620 | Decrypting an encrypted message returns it, for every cipher with D(k, E(k, b)) = b, every mode, key, vector and number of blocks; CTR needs no inverse. |
| Modes.StepInjective | 1.STM32/2、bootloader/stm32f4/src/MCU/source/stm32f4xx_cryp_aes.c:98-620 | Different blocks come out of the core different, in every mode and direction, if the cipher can be undone (CTR: always); for decryption because every block is the encryption of one. |
| Modes.StepReaches | 1.STM32/2、bootloader/stm32f4/src/MCU/source/stm32f4xx_cryp_aes.c:98-620 | Every block comes out of the core for some input block, under the same condition. |
| Streaming.StreamComputesRun | 1.STM32/2、bootloader/stm32f4/src/MCU/source/stm32f4xx_cryp_aes.c:207-255 | The block loop on one flat memory, input and output overlapping in any way that does not overwrite an unread input block: the output buffer holds the mode's function of the original message and no other byte changes. |
| Streaming.OverlapExact | 1.STM32/2、bootloader/stm32f4/src/MCU/source/stm32f4xx_cryp_aes.c:207-255 | For every core whose cipher can be undone (CTR: every core), every mode, direction and vector: the loop is faithful on every memory content if and only if the layout has no clash (2 or more blocks and Input < Output < Input + length); so in-place use and Output at or below Input are safe and the condition cannot be weakened. |
| Streaming.ClashBreaks | 1.STM32/2、bootloader/stm32f4/src/MCU/source/stm32f4xx_cryp_aes.c:207-255 | For every such core, mode and direction and every clashing layout, a message for which the loop's output is wrong. |
| Streaming.StreamSplit | 1.STM32/2、bootloader/stm32f4/src/MCU/source/stm32f4xx_cryp_aes.c:207-255 | Running k blocks and then n more from the memory and chaining value reached is running k + n blocks, whatever the overlap. |
| Streaming.StreamRoundTrip | 1.STM32/2、bootloader/stm32f4/src/MCU/source/stm32f4xx_cryp_des.c:189-273 | Encrypting a buffer and decrypting the result, in place or not, puts the message back at the second output address. |
| CrypControl.ControlBitsInjective | 1.STM32/2、bootloader/stm32f4/src/MCU/source/stm32f4xx_cryp.c:231-262 | The packed CR word determines algorithm, data type, key size, direction and enable. |
| CrypControl.AlgoCodes | 1.STM32/2、bootloader/stm32f4/src/MCU/source/stm32f4xx_cryp.c:238-240 | The mode codes bit by bit: bit 5 for AES, bit 4 for DES, counter mode and key preparation, bit 3 for chaining and key preparation, no bit outside 5:3. |
| CrypControl.FieldCodes | 1.STM32/2、bootloader/stm32f4/src/MCU/source/stm32f4xx_cryp.c:242-261 | Data type in bits 7:6, key size in bits 9:8, direction in bit 2 and enable in bit 15, each counted up in the order of the names. |
| CrypControl.StatusPlaces | 1.STM32/2、bootloader/stm32f4/src/MCU/source/stm32f4xx_cryp.c:480-497 | IFEM, IFNF, OFNE, OFFU and BUSY are bits 0 to 4 of SR. |
| CrypControl.SaveTestIs | 1.STM32/2、bootloader/stm32f4/src/MCU/source/stm32f4xx_cryp.c:480 | The word CRYP_SaveContext tests CR against is the union of the two TDES mode codes. |
| CrypControl.ConfiguredMeans | 1.STM32/2、bootloader/stm32f4/src/MCU/source/stm32f4xx_cryp.c:231-262 | The configured record has the algorithm, data type and direction asked for; the key size changes for the four AES algorithms only, and CRYPEN stays. |
| CrypControl.AlgoOnBits | 1.STM32/2、bootloader/stm32f4/src/MCU/source/stm32f4xx_cryp.c:238-240 | The two writes of CRYP_Init for ALGOMODE: clearing sets the mode to TDES in ECB, or-ing sets it to the new one, and no other field of CR changes. |
| CrypControl.DataTypeOnBits | 1.STM32/2、bootloader/stm32f4/src/MCU/source/stm32f4xx_cryp.c:242-244 | The same for DATATYPE, which is cleared to 32-bit data. |
| CrypControl.KeySizeOnBits | 1.STM32/2、bootloader/stm32f4/src/MCU/source/stm32f4xx_cryp.c:246-257 | The same for KEYSIZE, which is cleared to 128 bits. |
| CrypControl.DirectionOnBits | 1.STM32/2、bootloader/stm32f4/src/MCU/source/stm32f4xx_cryp.c:259-261 | The same for ALGODIR, which is cleared to encryption. |
| CrypControl.EnableOnBits | 1.STM32/2、bootloader/stm32f4/src/MCU/source/stm32f4xx_cryp.c:370-385 | CRYP_Cmd changes only CRYPEN. |
| CrypControl.SavedOnBits | 1.STM32/2、bootloader/stm32f4/src/MCU/source/stm32f4xx_cryp.c:511-515 | The bits [9:2] that CRYP_SaveContext keeps are the whole configuration without the enable bit. |
| CrypCore.ChainRoundTrip | 1.STM32/2、bootloader/stm32f4/src/MCU/source/stm32f4xx_cryp.c:329-335 | The chaining value written to the IV registers is read back from them, for 128-bit and 64-bit ciphers. |
| CrypControl.SaveTestsTheChain | 1.STM32/2、bootloader/stm32f4/src/MCU/source/stm32f4xx_cryp.c:480-487 | The test CRYP_SaveContext labels TDES is true of exactly the CBC modes of all three ciphers and of the key preparation mode, so the OUT FIFO check is left out for those and made for the rest. |
| CrypControl.CheckMaskMeans | 1.STM32/2、bootloader/stm32f4/src/MCU/source/stm32f4xx_cryp.c:480-497 | The masked comparison with IFEM holds if and only if the IN FIFO is empty, the core is not busy and, where checked, the OUT FIFO is empty. |
| CrypDevice.Cryp.Init | 1.STM32/2、bootloader/stm32f4/src/MCU/source/stm32f4xx_cryp.c:231-262 | CR becomes the configured record through one clearing and one setting write of the word per field; the key size is set for the four AES algorithms and kept for DES and TDES; no other register or FIFO changes and nothing starts. |
| CrypDevice.Cryp.Cmd | 1.STM32/2、bootloader/stm32f4/src/MCU/source/stm32f4xx_cryp.c:370-385 | Only the enable bit of the word changes; enabling the key mode on an idle core starts key preparation. |
| CrypDevice.Cryp.GetBusy | 1.STM32/2、bootloader/stm32f4/src/MCU/source/stm32f4xx_cryp.c:799-832 | One status read: BUSY as the device then is, latency run down by one or the finished operation delivered. |
| CrypDevice.Cryp.AwaitQuiet | 1.STM32/2、bootloader/stm32f4/src/MCU/source/stm32f4xx_cryp.c:489-497 | From any state of the device the wait of CRYP_SaveContext succeeds if and only if all words waiting make whole blocks that will be taken, the results fit (and none is due where the save looks at the OUT FIFO), and all is done within 65536 reads of SR; the state it leaves is that of 65536 reads. |
| CrypDevice.Cryp.SaveContext | 1.STM32/2、bootloader/stm32f4/src/MCU/source/stm32f4xx_cryp.c:466-538 | The same condition, in terms of the state at the call, decides SUCCESS; then the context holds the configuration word without CRYPEN, the vectors as they are after all blocks and the caller's key, and the processor is disabled; on ERROR the repository and CR are unchanged. |
| CrypDevice.Cryp.RestoreContext | 1.STM32/2、bootloader/stm32f4/src/MCU/source/stm32f4xx_cryp.c:551-575 | Configuration, key and vectors of the context are back and the processor is enabled, but the key is not prepared again; the FIFOs and DMA enables stay as they are. |
| CrypDrivers.LoopEnds | 1.STM32/2、bootloader/stm32f4/src/MCU/source/stm32f4xx_cryp_aes.c:208 | The 32-bit block index of the for loop reaches the end of the message if and only if the length is at most 2^32 minus the block size. |
| CrypDrivers.BlockInLoads | 1.STM32/2、bootloader/stm32f4/src/MCU/source/stm32f4xx_cryp_aes.c:212-219 | Little-endian loads and 8-bit data swapping present a block's memory bytes to the core in order. |
| CrypDrivers.WordsOutBytes | 1.STM32/2、bootloader/stm32f4/src/MCU/source/stm32f4xx_cryp_aes.c:243-252 | The words delivered by the core, stored little-endian, are the block's bytes in order. |
| CrypDrivers.KeyOfImage | 1.STM32/2、bootloader/stm32f4/src/MCU/source/stm32f4xx_cryp.c:292-303 | The eight key registers read most significant byte first are exactly the 32 bytes placed in them. |
| CrypDrivers.PlacedWords | 1.STM32/2、bootloader/stm32f4/src/MCU/source/stm32f4xx_cryp_aes.c:299-343 | Every key register word is the byte-reversed load of its key bytes, or zero outside the key. |
| CrypDrivers.LoadAesKey | 1.STM32/2、bootloader/stm32f4/src/MCU/source/stm32f4xx_cryp_aes.c:299-343 | A key of 16, 24 or 32 bytes ends up right-aligned in the registers after zeros, and the KEYSIZE code chosen is 0x000, 0x100 or 0x200. |
| CrypDrivers.AesJobIs | 1.STM32/2、bootloader/stm32f4/src/MCU/source/stm32f4xx_cryp_aes.c:118-160 | The job CRYP_AES_* runs: AES128, AES192 or AES256 for key sizes 128, 192 and 256; decryption for mode 0 and encryption for any other; the 32 bytes of the key registers are zeros and then the keysize / 8 key bytes. |
| CrypDrivers.LoadDesKey | 1.STM32/2、bootloader/stm32f4/src/MCU/source/stm32f4xx_cryp_des.c:218-225 | The 8 key bytes start at K1, the rest is zero. |
| CrypDrivers.LoadTdesKey | 1.STM32/2、bootloader/stm32f4/src/MCU/source/stm32f4xx_cryp_tdes.c:230-248 | The 24 key bytes start at K1, the rest is zero. |
| CrypDrivers.DesJobIs | 1.STM32/2、bootloader/stm32f4/src/MCU/source/stm32f4xx_cryp_tdes.c:109-147 | The job CRYP_DES_* or CRYP_TDES_* runs: encryption for mode 1 and decryption for any other; the key registers hold 8 zero bytes and then the 8 key bytes and 16 zeros, or the 24 key bytes. |
| CrypDrivers.VectorLoaded | 1.STM32/2、bootloader/stm32f4/src/MCU/source/stm32f4xx_cryp_aes.c:345-352 | The IV registers hold the vector's bytes in order. |
| CrypDrivers.WaitWhileBusy | 1.STM32/2、bootloader/stm32f4/src/MCU/source/stm32f4xx_cryp_aes.c:376-383 | From any state of the device the wait reports not busy if and only if there is room for all results and 65536 reads of SR bring it to rest; it makes at most 65536, and in every case, a time-out included, leaves the device as 65536 reads leave it. |
| CrypDrivers.ProcessBlock | 1.STM32/2、bootloader/stm32f4/src/MCU/source/stm32f4xx_cryp_aes.c:211-254 | One turn of the loop writes the oldest block not read yet, which is the core's result for the block just put in unless something was left over; if the wait times out, memory is unchanged and the core holds the block with the rest of its latency, or still the operation before (GivenUp); neither FIFO ever holds more than one block beyond what was left over; in ECB mode the vectors stay. |
| CrypDrivers.BlockLoop | 1.STM32/2、bootloader/stm32f4/src/MCU/source/stm32f4xx_cryp_aes.c:207-255 | For every latency and whatever is still in the core, the loop stops at the first block whose wait times out, with exactly the blocks before it written and that block's result, chaining value and remaining latency in the core (Remains); after SUCCESS the core is idle; the FIFO bound of one block holds throughout; at most 65536 polls a block. |
| CrypDrivers.PrepareKey | 1.STM32/2、bootloader/stm32f4/src/MCU/source/stm32f4xx_cryp_aes.c:357-389 | From any state: success if and only if the wait ends in time; the decryption schedule of the key is installed if and only if the preparation could begin or was the same one; after a time-out the preparation, or the operation that was going on, is still in the core with the rest of its latency. |
| CrypDrivers.AesEcb | 1.STM32/2、bootloader/stm32f4/src/MCU/source/stm32f4xx_cryp_aes.c:98-261 | CRYP_AES_ECB from any state of the processor performs the ECB job on the memory as it was at the call, key included, with what was still going on taken into account (Driven; see DriverResult, DriverExact, DriverStale); it leaves the processor disabled, idle after SUCCESS, after ERROR with exactly the block or key preparation that was given up in the core (Leaves); the vectors stay; polls bounded by 65536 a block plus 65536; FIFO bound of one block. |
| CrypDrivers.AesCbc | 1.STM32/2、bootloader/stm32f4/src/MCU/source/stm32f4xx_cryp_aes.c:279-457 | CRYP_AES_CBC, the same with the vector read before anything is written, so Output may overlap key and vector. |
| CrypDrivers.AesCtr | 1.STM32/2、bootloader/stm32f4/src/MCU/source/stm32f4xx_cryp_aes.c:475-620 | CRYP_AES_CTR, the same without key preparation. |
| CrypDrivers.DesEcb | 1.STM32/2、bootloader/stm32f4/src/MCU/source/stm32f4xx_cryp_des.c:94-172 | CRYP_DES_ECB, as CRYP_AES_ECB with 8-byte blocks and no key preparation; the vectors stay. |
| CrypDrivers.DesCbc | 1.STM32/2、bootloader/stm32f4/src/MCU/source/stm32f4xx_cryp_des.c:189-273 | CRYP_DES_CBC, as CRYP_AES_CBC; the result does not depend on the uninitialised second half of the vector structure. |
| CrypDrivers.TdesEcb | 1.STM32/2、bootloader/stm32f4/src/MCU/source/stm32f4xx_cryp_tdes.c:96-181 | CRYP_TDES_ECB, with three keys; the vectors stay. |
| CrypDrivers.TdesCbc | 1.STM32/2、bootloader/stm32f4/src/MCU/source/stm32f4xx_cryp_tdes.c:198-291 | CRYP_TDES_CBC, with three keys; as CRYP_DES_CBC for the vector. |
| CrypTheorems.DriverResult | 1.STM32/2、bootloader/stm32f4/src/MCU/source/stm32f4xx_cryp_aes.c:162-260 | A driver call that finds nothing in the core that could spoil it (no block; for AES ECB/CBC decryption, idle and disabled, or preparing the same key) returns SUCCESS if and only if no wait sees BUSY 65536 times; without a clash the output holds exactly the correct blocks finished before the time-out (all of them on SUCCESS) and the rest of memory is unchanged. |
| CrypTheorems.DriverMeetsStandard | 1.STM32/2、bootloader/stm32f4/src/MCU/source/stm32f4xx_cryp_aes.c:279-457 | On SUCCESS without a clash the output blocks are those NIST SP 800-38A prescribes for the original input; in bytes of memory: DriverEcb, DriverCbcEncrypt, DriverCbcDecrypt, DriverCtr. |
| CrypTheorems.DriverEcb | 1.STM32/2、bootloader/stm32f4/src/MCU/source/stm32f4xx_cryp_aes.c:98-261 | On SUCCESS without a clash output block i in memory is E or D, under the job's key, of input block i as it was at the call. |
| CrypTheorems.DriverCbcEncrypt | 1.STM32/2、bootloader/stm32f4/src/MCU/source/stm32f4xx_cryp_aes.c:279-457 | On SUCCESS without a clash output block i in memory is E of input block i xor, byte by byte, the output block before, or the vector. |
| CrypTheorems.DriverCbcDecrypt | 1.STM32/2、bootloader/stm32f4/src/MCU/source/stm32f4xx_cryp_aes.c:279-457 | On SUCCESS without a clash each byte of output block i in memory is that of D of input block i xor that of the input block before, or of the vector. |
| CrypTheorems.DriverCtr | 1.STM32/2、bootloader/stm32f4/src/MCU/source/stm32f4xx_cryp_aes.c:475-620 | On SUCCESS without a clash each byte of output block i in memory is that of input block i xor that of E of the vector incremented i times. |
| CrypTheorems.DriverRoundTrip | 1.STM32/2、bootloader/stm32f4/src/MCU/source/stm32f4xx_cryp_tdes.c:96-291 | Encrypting with a driver and decrypting the output with the driver of the same mode returns the message, for all drivers and any safe layout; in the ECB modes whatever the vector registers hold at either call. |
| CrypTheorems.AesEcbRoundTrip | 1.STM32/2、bootloader/stm32f4/src/MCU/source/stm32f4xx_cryp_aes.c:98-261 | Two calls of CRYP_AES_ECB on an idle processor, encrypting and then decrypting: both succeed if and only if all 2n + 1 operations, key preparation included, end within the polling limit; then the message is back and no byte outside the two outputs has changed. |
| CrypTheorems.AesCbcRoundTrip | 1.STM32/2、bootloader/stm32f4/src/MCU/source/stm32f4xx_cryp_aes.c:279-457 | The same for CRYP_AES_CBC with one vector. |
| CrypTheorems.DesEcbRoundTrip | 1.STM32/2、bootloader/stm32f4/src/MCU/source/stm32f4xx_cryp_des.c:94-172 | The same for CRYP_DES_ECB, with 2n operations. |
| CrypTheorems.AesJobsUndo | 1.STM32/2、bootloader/stm32f4/src/MCU/source/stm32f4xx_cryp_aes.c:98-457 | The AES encryption and decryption calls with equal key bytes are inverse jobs, for 128, 192 and 256 bits. |
| CrypTheorems.DesJobsUndo | 1.STM32/2、bootloader/stm32f4/src/MCU/source/stm32f4xx_cryp_tdes.c:96-291 | The same for DES and TDES. |
| CrypTheorems.RestoreExact | 1.STM32/2、bootloader/stm32f4/src/MCU/source/stm32f4xx_cryp.c:551-575 | A restored job computes what the suspended one would have, on every message, if and only if it is not an AES ECB or CBC decryption, or the core decrypts correctly with an unprepared key: RestoreContext does not prepare the key again. |
| CrypTheorems.SwitchOut | 1.STM32/2、bootloader/stm32f4/src/MCU/source/stm32f4xx_cryp.c:466-575 | From any state, a block waiting or in the core included: the save succeeds if and only if the condition of SaveContext holds; the words then in the OUT FIFO are lost to the other job's flush; key, configuration and the vectors as they are after all blocks are back, what the other job left in the core and the OUT FIFO is still there, and a key preparation starts anew if it left the core idle. |
| CrypTheorems.SwitchedRun | 1.STM32/2、bootloader/stm32f4/src/MCU/source/stm32f4xx_cryp.c:466-575 | Part one, a save, any other job that leaves the two buffers alone and ends or times out, a restore and part two: success if and only if every wait of both parts ends in time, the first after the restore with what the other job left going on; memory is then exactly what MemoryAfter says, after ERROR for the finished blocks. For every mode but AES ECB/CBC decryption. |
| CrypTheorems.SwitchedSame | 1.STM32/2、bootloader/stm32f4/src/MCU/source/stm32f4xx_cryp.c:466-575 | If the other job left no block, the two parts leave in the buffers what one uninterrupted run leaves, for any layout, and all other memory is the other job's. |
| CrypTheorems.SwitchedExact | 1.STM32/2、bootloader/stm32f4/src/MCU/source/stm32f4xx_cryp.c:466-575 | The buffers hold after both parts what one uninterrupted run leaves, whatever the message, if and only if the other job left no block in the core and nothing in the OUT FIFO; a key preparation it left going on does no harm. Safe layout; cipher that can be undone, or CTR. |
| CanFrame.FrameRoundTrip | 1.STM32/2、bootloader/stm32f4/src/MCU/source/stm32f4xx_can.c:599-633 | Unpacking the delivered words returns kind, RTR, identifier, length and all eight bytes of the packed message; the identifier of the other kind keeps its old content. |
| CanFrame.PackPlaces | 1.STM32/2、bootloader/stm32f4/src/MCU/source/stm32f4xx_can.c:599-633 | The mailbox CAN_Transmit leaves, field by field: TXRQ, RTR and IDE in bits 0 to 2 of TIR, the identifier in bits 31:21 or 31:3, the length in bits 3:0 of TDTR and its other bits as before, data bytes 0 to 3 in TDLR and 4 to 7 in TDHR, lowest first. |
| CanFrame.UnpackPlaces | 1.STM32/2、bootloader/stm32f4/src/MCU/source/stm32f4xx_can.c:745-774 | The message CAN_Receive makes, field by field: kind, RTR and identifier from the same bits of RIR, the length from bits 3:0 and the filter index from bits 15:8 of RDTR, the data from RDLR and RDHR. |
| CanFrame.PackInjective | 1.STM32/2、bootloader/stm32f4/src/MCU/source/stm32f4xx_can.c:599-633 | Messages packed into the same words are the same frame. |
| CanFrame.PackKeepsTime | 1.STM32/2、bootloader/stm32f4/src/MCU/source/stm32f4xx_can.c:613-616 | The upper 28 bits of TDTR are kept. |
| CanTransmit.RunKeeps | 1.STM32/2、bootloader/stm32f4/src/MCU/source/stm32f4xx_can.c:572-715 | Over every interleaving of register accesses and hardware completions, the waiting frames are exactly those in the occupied mailboxes, no two results share a frame, TSR reports true fates, decided fates never change. |
| CanTransmit.ApplyKeeps | 1.STM32/2、bootloader/stm32f4/src/MCU/source/stm32f4xx_can.c:572-715 | The same for one access. |
| CanTransmit.TsrShows | 1.STM32/2、bootloader/stm32f4/src/MCU/source/stm32f4xx_can.c:652-668 | The TSR word shows the empty, completed, success and abort flags of each mailbox separately. |
| CanTransmit.TsrPlaces | 1.STM32/2、bootloader/stm32f4/src/MCU/source/stm32f4xx_can.c:652-668 | RQCP, TXOK and ABRQ of mailbox x are bits 0, 1 and 7 of byte x of TSR, and TME is bit 26 + x; the remaining flags are ALST and TERR of each mailbox, CODE and LOW. |
| CanTransmit.CanTx.Transmit | 1.STM32/2、bootloader/stm32f4/src/MCU/source/stm32f4xx_can.c:572-635 | The first mailbox that was empty at its own read of TSR is used and holds exactly the packed message, queued; NoMailBox if and only if each mailbox was occupied when read; other mailboxes change only by the hardware; pending frames are untouched. |
| CanTransmit.CanTx.TransmitStatus | 1.STM32/2、bootloader/stm32f4/src/MCU/source/stm32f4xx_can.c:644-690 | For a mailbox whose result TSR shows, 1 if and only if the frame was sent and 0 if and only if it was dropped; 2 if and only if the mailbox is occupied, its frame then still waiting; a mailbox number that does not exist is answered with 2. |
| CanTransmit.CanTx.CancelTransmit | 1.STM32/2、bootloader/stm32f4/src/MCU/source/stm32f4xx_can.c:698-715 | The abort request is set; every mailbox whose RQCP was set at the read has its result erased by the write-back; no mailbox for other numbers. |
| CanTransmit.DecodeReports | 1.STM32/2、bootloader/stm32f4/src/MCU/source/stm32f4xx_can.c:669-688 | The second switch of CAN_TransmitStatus decodes the masked TSR bits to pending, success or failure for each mailbox. |
| CanTransmit.CancelErases | 1.STM32/2、bootloader/stm32f4/src/MCU/source/stm32f4xx_can.c:698-715 | The reported status of any mailbox survives a cancel if and only if it was not a success when TSR was read. |
| CanReceive.RunKeeps | 1.STM32/2、bootloader/stm32f4/src/MCU/source/stm32f4xx_can.c:745-836 | Over every run of arrivals, overruns, releases and flag writes at most three frames are pending, every arrived frame is kept or lost and not both, kept frames stay in order of arrival, and history only grows. |
| CanReceive.Conservation | 1.STM32/2、bootloader/stm32f4/src/MCU/source/stm32f4xx_can.c:745-836 | Frames that left plus pending plus lost equals frames arrived. |
| CanReceive.ReadInOrder | 1.STM32/2、bootloader/stm32f4/src/MCU/source/stm32f4xx_can.c:745-786 | Frames are returned at most once, in order of arrival, and never one that was lost. |
| CanReceive.ReleaseClearsFlags | 1.STM32/2、bootloader/stm32f4/src/MCU/source/stm32f4xx_can.c:776-785 | RFxR |= RFOM releases and also clears FULL and FOVR if they were read as set. |
| CanReceive.RfrPlaces | 1.STM32/2、bootloader/stm32f4/src/MCU/source/stm32f4xx_can.c:776-836 | RFxR has the number pending in bits 1:0, FULL in bit 3 and FOVR in bit 4. |
| CanReceive.ArriveFlags | 1.STM32/2、bootloader/stm32f4/src/MCU/source/stm32f4xx_can.c:745-836 | FULL comes up when the third place is taken and FOVR when a frame finds none; an arrival clears neither. |
| CanReceive.AssemblePlaces | 1.STM32/2、bootloader/stm32f4/src/MCU/source/stm32f4xx_can.c:745-774 | Which of the thirteen reads each part of the message comes from: kind, identifier, RTR, length, filter index, and one read a data byte. |
| CanReceive.HwSettles | 1.STM32/2、bootloader/stm32f4/src/MCU/source/stm32f4xx_can.c:745-774 | Arrivals, in any number, never change the frame at the output of a non-empty FIFO nor remove one. |
| CanReceive.CanRx.Receive | 1.STM32/2、bootloader/stm32f4/src/MCU/source/stm32f4xx_can.c:745-786 | The message is assembled field by field from what each of the thirteen separate reads sees. With a frame pending at the first read it is that frame, whole, and exactly that frame leaves; with none pending, a frame that arrives before the release leaves all the same; the other FIFO changes only by its own arrivals. |
| CanReceive.CanRx.FifoRelease | 1.STM32/2、bootloader/stm32f4/src/MCU/source/stm32f4xx_can.c:794-809 | Exactly the frame at the output leaves unread, if there is one; FULL and FOVR are cleared if they were set when read; the other FIFO changes only by its own arrivals. |
| CanReceive.CanRx.MessagePending | 1.STM32/2、bootloader/stm32f4/src/MCU/source/stm32f4xx_can.c:817-836 | The number of pending frames, at most three; 0 for a FIFO that does not exist. |
| CanFilter.BankTable | 1.STM32/2、bootloader/stm32f4/src/MCU/source/stm32f4xx_can.c:329-413 | After every sequence of CAN_FilterInit and CAN_SlaveStartBank calls, bank k decodes to its last configuration: activity, scale, mode, FIFO and the four identifier halves; no call disturbs another bank. |
| CanFilter.StartTable | 1.STM32/2、bootloader/stm32f4/src/MCU/source/stm32f4xx_can.c:463-477 | The slave's first bank is the last one set, and filter initialisation mode is left after every call. |
| CanFilter.StepBank | 1.STM32/2、bootloader/stm32f4/src/MCU/source/stm32f4xx_can.c:329-413 | One call rewrites its own bank whole and no other. |
| CanFilter.FilterWords | 1.STM32/2、bootloader/stm32f4/src/MCU/source/stm32f4xx_can.c:329-413 | The registers after CAN_FilterInit: scale, mode, FIFO and activity bit of the bank in FS1R, FM1R, FFA1R and FA1R and no other bank's; FR1 and FR2 hold identifier and mask in 32-bit scale, and two pairs of an identifier and a mask in 16-bit scale; FINIT is clear and the rest of FMR as before. |
| CanFilter.SlaveWord | 1.STM32/2、bootloader/stm32f4/src/MCU/source/stm32f4xx_can.c:463-477 | FMR after CAN_SlaveStartBank: the bank in bits 13:8, bits 3:0 clear, the other bits as before. |
| CanFilter.CanFilter.FilterInit | 1.STM32/2、bootloader/stm32f4/src/MCU/source/stm32f4xx_can.c:329-413 | On a device that ignores writes outside initialisation mode, the call has its full effect, and no configuration bit or identifier of a bank changes while that bank is active. |
| CanFilter.CanFilter.SlaveStartBank | 1.STM32/2、bootloader/stm32f4/src/MCU/source/stm32f4xx_can.c:463-477 | On the same device the start bank takes effect; the banks are untouched. |
| CanMode.SpentMeans | 1.STM32/2、bootloader/stm32f4/src/MCU/source/stm32f4xx_can.c:216-220 | A wait ends at the first read of MSR that shows what it waits for, or after its last step. |
| CanMode.BoundedWait | 1.STM32/2、bootloader/stm32f4/src/MCU/source/stm32f4xx_can.c:867-996 | Every wait makes at most 65536 reads, with equality when the mode never comes. |
| CanMode.TimingBack | 1.STM32/2、bootloader/stm32f4/src/MCU/source/stm32f4xx_can.c:290-294 | BTR decodes back to mode, SJW, BS1, BS2 and prescaler. |
| CanMode.OptionsRead | 1.STM32/2、bootloader/stm32f4/src/MCU/source/stm32f4xx_can.c:229-287 | Each of the six option bits of MCR shows its option afterwards. |
| CanMode.OptionsKeep | 1.STM32/2、bootloader/stm32f4/src/MCU/source/stm32f4xx_can.c:229-287 | Setting the options changes no other bit of MCR. |
| CanMode.OptionsWord | 1.STM32/2、bootloader/stm32f4/src/MCU/source/stm32f4xx_can.c:229-287 | TTCM, ABOM, AWUM, NART, RFLM and TXFP are bits 7 to 2 of MCR, each set if and only if its option is asked for; all other bits stay. |
| CanMode.InitWord | 1.STM32/2、bootloader/stm32f4/src/MCU/source/stm32f4xx_can.c:192-320 | MCR as a successful CAN_Init leaves it: the six options as asked, INRQ and SLEEP clear, the upper bits as before. |
| CanMode.RequestedMeans | 1.STM32/2、bootloader/stm32f4/src/MCU/source/stm32f4xx_can.c:867-941 | CAN_OperatingModeRequest writes 1, 0 or 2 to the low two bits of MCR for initialisation, normal mode and sleep, and changes no other bit. |
| CanMode.CanMode.Init | 1.STM32/2、bootloader/stm32f4/src/MCU/source/stm32f4xx_can.c:192-320 | If the read after the first wait shows INAK clear, the result is Failed with initialisation still requested and BTR and options untouched; else both are written, before initialisation mode is left, no mode is requested any more, and Success if and only if the last read shows INAK clear. Any sequence of MSR values. |
| CanMode.CanMode.OperatingModeRequest | 1.STM32/2、bootloader/stm32f4/src/MCU/source/stm32f4xx_can.c:867-941 | MCR requests initialisation as 1, normal mode as 0, sleep as 2 in its low two bits, its other bits stay, and Success if and only if the low two bits of MSR at the last read are the same; timing stays; a mode that does not exist fails without touching the device. |
| CanMode.CanMode.WakeUp | 1.STM32/2、bootloader/stm32f4/src/MCU/source/stm32f4xx_can.c:973-996 | SLEEP is cleared and no other bit of MCR changes; Ok if and only if the last read of MSR shows SLAK, bit 1, clear. |
| Fields.GetPut | 1.STM32/2、bootloader/stm32f4/src/MCU/source/stm32f4xx_adc.c:730-741 | A w-bit field at bit s, for every w from 1 to 32 with s + w at most 32, reads what was put into it. |
| Fields.GetMeans | 1.STM32/2、bootloader/stm32f4/src/MCU/source/stm32f4xx_adc.c:730-741 | Reading a field is shifting the word down by its place and keeping w bits. |
| Fields.Frame | 1.STM32/2、bootloader/stm32f4/src/MCU/source/stm32f4xx_adc.c:730-741 | No disjoint field of any width changes. |
| Fields.ClearThenSet | 1.STM32/2、bootloader/stm32f4/src/MCU/source/stm32f4xx_adc.c:730-741 | Clearing the shifted mask and or-ing the shifted value is putting the field. |
| Adc.RegularTable | 1.STM32/2、bootloader/stm32f4/src/MCU/source/stm32f4xx_adc.c:708-821 | After every sequence of the four calls, SQR1-3 decode to sixteen ranks, each holding its last channel, and a length, the last one set. |
| Adc.RankPlaces | 1.STM32/2、bootloader/stm32f4/src/MCU/source/stm32f4xx_adc.c:752-820 | Rank 6p + q + 1 is the q-th five bits of SQR3, SQR2 or SQR1; the length is bits 23:20 of SQR1. |
| Adc.TimeTable | 1.STM32/2、bootloader/stm32f4/src/MCU/source/stm32f4xx_adc.c:708-821 | SMPR1-2 decode to nineteen sample times, each its last write by either configuration call. |
| Adc.TimePlaces | 1.STM32/2、bootloader/stm32f4/src/MCU/source/stm32f4xx_adc.c:716-751 | The sample time of channel 10p + q is the q-th three bits of SMPR2 or SMPR1. |
| Adc.InjectedTable | 1.STM32/2、bootloader/stm32f4/src/MCU/source/stm32f4xx_adc.c:1186-1269 | With every injected rank at most the length then set, JL is the last length and each JSQ field holds the last channel placed in it, over every sequence of calls. |
| Adc.InjectedPlaces | 1.STM32/2、bootloader/stm32f4/src/MCU/source/stm32f4xx_adc.c:1226-1269 | The i-th injected conversion from the end is in bits 19-5i:15-5i of JSQR, whatever the length, which is in bits 21:20. |
| Adc.InjectedSequence | 1.STM32/2、bootloader/stm32f4/src/MCU/source/stm32f4xx_adc.c:1186-1269 | After setting length n and configuring ranks 1 to n in any order, the sequencer converts as rank k the channel last configured for k. |
| Adc.LengthSurvives | 1.STM32/2、bootloader/stm32f4/src/MCU/source/stm32f4xx_adc.c:1226-1239 | Configuring an injected rank keeps JL if and only if the rank is not length + 1 or the channel's two low bits equal JL; the parameter check admits the failing case. |
| Adc.Adc.RegularChannelConfig | 1.STM32/2、bootloader/stm32f4/src/MCU/source/stm32f4xx_adc.c:708-821 | Sets the sample time and the rank as the register-level step of the tables. |
| Adc.Adc.SequenceLength | 1.STM32/2、bootloader/stm32f4/src/MCU/source/stm32f4xx_adc.c:276-289 | The SQR1 part of ADC_Init sets the length and no rank. |
| Adc.Adc.InjectedChannelConfig | 1.STM32/2、bootloader/stm32f4/src/MCU/source/stm32f4xx_adc.c:1186-1240 | Sets the sample time and the JSQ field that the current JL selects. |
| Adc.Adc.InjectedSequencerLengthConfig | 1.STM32/2、bootloader/stm32f4/src/MCU/source/stm32f4xx_adc.c:1249-1269 | Sets JL and no JSQ field. |
| Gpio.PinTable | 1.STM32/2、bootloader/stm32f4/src/MCU/source/stm32f4xx_gpio.c:182-227 | After every sequence of GPIO_Init and GPIO_PinAFConfig calls, each pin's record is what the calls whose mask has its bit set, or that name it, made of it; no call disturbs another pin. |
| Gpio.SelectedMeans | 1.STM32/2、bootloader/stm32f4/src/MCU/source/stm32f4xx_gpio.c:193-200 | The test in the loop of GPIO_Init for pin p is of bit p of the mask. |
| Gpio.MasksSelect | 1.STM32/2、bootloader/stm32f4/src/MCU/source/stm32f4xx_gpio.c:193-200 | Bit n of the mask selects pin n alone; a union of masks selects what its parts select. |
| Gpio.DrivesMeans | 1.STM32/2、bootloader/stm32f4/src/MCU/source/stm32f4xx_gpio.c:206-220 | Speed and output type are set for modes 1 and 2, output and alternate function, and not for 0 and 3. |
| Gpio.PinPlaces | 1.STM32/2、bootloader/stm32f4/src/MCU/source/stm32f4xx_gpio.c:193-226 | A pin's settings are two bits of MODER, OSPEEDR and PUPDR, one of OTYPER, and four of the low or high AFR. |
| Gpio.InitPinsPin | 1.STM32/2、bootloader/stm32f4/src/MCU/source/stm32f4xx_gpio.c:193-226 | The loop configures exactly the pins it has passed whose bit in the mask is set: mode and pull always, speed and output type only for output and alternate function. |
| Gpio.Gpio.Init | 1.STM32/2、bootloader/stm32f4/src/MCU/source/stm32f4xx_gpio.c:182-227 | The sixteen-turn loop with its register updates is that transformation. |
| Gpio.Gpio.PinAFConfig | 1.STM32/2、bootloader/stm32f4/src/MCU/source/stm32f4xx_gpio.c:529-543 | The 4-bit field of AFR[pin >> 3] is set. |
| Dma.PendingTable | 1.STM32/2、bootloader/stm32f4/src/MCU/source/stm32f4xx_dma.c:1053-1084 | Over every run of events, clears and enables, an event is pending if and only if it happened and no clear of its controller named it since. |
| Dma.EnabledTable | 1.STM32/2、bootloader/stm32f4/src/MCU/source/stm32f4xx_dma.c:1100-1136 | An event kind of a stream is enabled as the last configuration listing it left it. |
| Dma.ConfigCodes | 1.STM32/2、bootloader/stm32f4/src/MCU/include/stm32f4xx_dma.h:430-432 | DMA_ITConfig's parameter check admits exactly the non-empty unions of the five enable bits; each event's bit alone is admitted, the bits are apart, and every admitted code lists an event. |
| Dma.EnableBits | 1.STM32/2、bootloader/stm32f4/src/MCU/include/stm32f4xx_dma.h:420-432 | The enable bit of the FIFO error is bit 7, those of the others bits 1 to 4 in the order of the status bits. |
| Dma.BitParts | 1.STM32/2、bootloader/stm32f4/src/MCU/include/stm32f4xx_dma.h:354-393 | The status bits of the streams begin at places 0, 6, 16 and 22, the FIFO error first and the others one place above their enable bits. |
| Dma.ItCodeNamesItself | 1.STM32/2、bootloader/stm32f4/src/MCU/include/stm32f4xx_dma.h:439-480 | Each of the forty DMA_IT codes names its own stream and event and no other. |
| Dma.ItCodeParts | 1.STM32/2、bootloader/stm32f4/src/MCU/include/stm32f4xx_dma.h:439-480 | Every interrupt code is the half of the streams, the status bit, and the enable bit eleven places above its own in CR, or bit 31 for the FIFO error. |
| Dma.FlagCodeNamesItself | 1.STM32/2、bootloader/stm32f4/src/MCU/include/stm32f4xx_dma.h:354-393 | Each of the forty DMA_FLAG codes names its own stream and event and no other. |
| Dma.FlagCodeParts | 1.STM32/2、bootloader/stm32f4/src/MCU/include/stm32f4xx_dma.h:354-393 | Every flag code is the half and the status bit, with a stray bit in those of FEIF0 and DMEIF0. |
| Dma.CombinedCodes | 1.STM32/2、bootloader/stm32f4/src/MCU/source/stm32f4xx_dma.c:1053-1084 | A combination of codes of one half names exactly what its parts name. |
| Dma.ClearableFlags | 1.STM32/2、bootloader/stm32f4/src/MCU/include/stm32f4xx_dma.h:395-396 | The parameter check of DMA_ClearFlag accepts every documented flag code if and only if it is not FEIF0 or DMEIF0; that of DMA_ClearITPendingBit accepts all. |
| Dma.Dma.GetITStatus | 1.STM32/2、bootloader/stm32f4/src/MCU/source/stm32f4xx_dma.c:1152-1218 | SET if and only if the named event is pending in the stream's controller and its kind is enabled in the stream, for every register content. |
| Dma.Dma.GetFlagStatus | 1.STM32/2、bootloader/stm32f4/src/MCU/source/stm32f4xx_dma.c:986-1037 | SET if and only if the named event is pending in the stream's controller. |
| Dma.Dma.ClearPending | 1.STM32/2、bootloader/stm32f4/src/MCU/source/stm32f4xx_dma.c:1234-1265 | Exactly the named events of that controller become not pending; every other entry and every enable stays. |
| Dma.Dma.ITConfig | 1.STM32/2、bootloader/stm32f4/src/MCU/source/stm32f4xx_dma.c:1100-1136 | Exactly the listed kinds of that stream are enabled or disabled, and every admitted code lists at least one. |
| CrypControl.DecodeBits | 1.STM32/2、bootloader/stm32f4/src/MCU/source/stm32f4xx_cryp.c:231-262 | The word written to CR is read back by the processor as the record, field by field. |
| CrypCore.SettledIff | 1.STM32/2、bootloader/stm32f4/src/MCU/source/stm32f4xx_cryp.c:489-497 | After n reads of SR, from any state, the FIFOs are empty and the core idle as the save wants it if and only if the words waiting make whole blocks that will be taken, the results fit or none is due, and n is at least the time the work takes. |
| CrypCore.RestIff | 1.STM32/2、bootloader/stm32f4/src/MCU/source/stm32f4xx_cryp_aes.c:376-383 | n reads of SR bring the device to rest if and only if there is room for all results and n is at least the sum of the latencies plus one read an operation; the state is then the state of rest. |
| CrypCore.PollCounts | 1.STM32/2、bootloader/stm32f4/src/MCU/source/stm32f4xx_cryp.c:799-832 | One read of SR neither loses nor adds a word and brings rest one read nearer. |
| CrypCore.RestStays | 1.STM32/2、bootloader/stm32f4/src/MCU/source/stm32f4xx_cryp.c:489-497 | At rest, reading SR changes nothing. |
| CrypCore.NothingTaken | 1.STM32/2、bootloader/stm32f4/src/MCU/source/stm32f4xx_cryp_aes.c:357-389 | While the processor is disabled or in the key mode, no number of status reads takes a word from the IN FIFO. |
| CrypDrivers.BlockWait | 1.STM32/2、bootloader/stm32f4/src/MCU/source/stm32f4xx_cryp_aes.c:211-227 | How long the wait for a block just written takes with something still in the core, and the FIFOs, vectors and schedule it leaves. |
| CrypDrivers.BlockTimeout | 1.STM32/2、bootloader/stm32f4/src/MCU/source/stm32f4xx_cryp_aes.c:222-233 | What a wait that is given up leaves in the FIFOs, the vectors and the core, word for word. |
| CrypTheorems.DriverStale | 1.STM32/2、bootloader/stm32f4/src/MCU/source/stm32f4xx_cryp_aes.c:207-255 | A call that finds a block still in the core answers SUCCESS with that block's bytes first and its own result one block late, from the chaining value that block leaves. |
| CrypTheorems.DriverExact | 1.STM32/2、bootloader/stm32f4/src/MCU/source/stm32f4xx_cryp_aes.c:162-260 | For all seven drivers, a call whose waits all end in time computes the mode's result for every message if and only if the layout is safe and it found no block in the core (for AES ECB and CBC decryption: its key preparation could begin or was going on, or the core needs none). Cipher that can be undone, or CTR. |
| CrypTheorems.Retry | 1.STM32/2、bootloader/stm32f4/src/MCU/source/stm32f4xx_cryp_des.c:94-172 | CRYP_DES_ECB twice from reset, the first operation being too slow: the first call answers ERROR; the second answers SUCCESS if and only if the slow operation and its own end meanwhile, and its output is then the encryption of the first call's message. |
| CrypTheorems.StaleAnswer | 1.STM32/2、bootloader/stm32f4/src/MCU/source/stm32f4xx_cryp_des.c:94-172 | A run of it: ERROR, then SUCCESS with an output that is not the encryption of the message under any key. |
| CrypTheorems.EntryExact | 1.STM32/2、bootloader/stm32f4/src/MCU/source/stm32f4xx_cryp_aes.c:357-400 | AES ECB/CBC decryption entered with the core at work or enabled uses an unprepared key, unless the same key is being prepared: it decrypts every message rightly if and only if the entry is clean or the core needs no preparation. |
| CrypTheorems.RestoreBreaks | 1.STM32/2、bootloader/stm32f4/src/MCU/source/stm32f4xx_cryp.c:551-575 | A concrete core, key schedule as CRYP_AES_CBC installs it, and block for which the resumed decryption is wrong. |
| CrypTheorems.MidBlockSave | 1.STM32/2、bootloader/stm32f4/src/MCU/source/stm32f4xx_cryp.c:466-538 | A save with a block in the core: in ECB and CTR it never succeeds; in CBC it does if the block is done in time and fits, and the block's result is then unread in the OUT FIFO. |
| CrypTheorems.Interrupt | 1.STM32/2、bootloader/stm32f4/src/MCU/source/stm32f4xx_cryp.c:466-575 | At a block boundary with nothing left over the save succeeds, and after the other job and the restore the loop's job is back, at its head, with whatever the other job left over in front. |
| Streaming.LagComputes | 1.STM32/2、bootloader/stm32f4/src/MCU/source/stm32f4xx_cryp_aes.c:207-255 | The block loop with bytes left over from before: they come first, the mode's result follows, shifted by as many bytes, and its end stays unread. |
| Streaming.LagExact | 1.STM32/2、bootloader/stm32f4/src/MCU/source/stm32f4xx_cryp_aes.c:207-255 | For every core whose cipher can be undone, every mode and direction and one or more blocks: entered with any chaining value and any bytes left over, the loop computes the mode of every message if and only if nothing is left over and the layout is safe. |
| CanTransmit.SuccessLost | 1.STM32/2、bootloader/stm32f4/src/MCU/source/stm32f4xx_can.c:698-715 | From reset, a frame sent from mailbox 0 is reported as failed after a cancel in mailbox 1. |
| CanReceive.WholeIff | 1.STM32/2、bootloader/stm32f4/src/MCU/source/stm32f4xx_can.c:745-774 | The message is a frame that was at the output, whole, under every schedule of arrivals if and only if a frame is pending when CAN_Receive is called. |
| CanReceive.Torn | 1.STM32/2、bootloader/stm32f4/src/MCU/source/stm32f4xx_can.c:745-774 | For every empty FIFO, one frame arriving between two of the reads that gives a message which is neither the old content nor the new frame. |
| CanReceive.HeadsChangeOnce | 1.STM32/2、bootloader/stm32f4/src/MCU/source/stm32f4xx_can.c:745-774 | During the thirteen reads the output changes at most once, from the old content to the first frame that arrives. |
| CanReceive.DeliveredWhole | 1.STM32/2、bootloader/stm32f4/src/MCU/source/stm32f4xx_can.c:745-774 | A frame pending at the first read is returned whole. |
| Adc.LengthLost | 1.STM32/2、bootloader/stm32f4/src/MCU/source/stm32f4xx_adc.c:1186-1269 | From reset, length 2 and then rank 3 for channel 2 leave the length at 3. |

## Left out

- The inside of AES, DES and TDES, the CAN bus protocol, error counters and DMA data movement: hardware, no code for it here.
- Parameter checks (`assert_param`) are preconditions; a call that fails one is not modelled, except where the code handles the value (`CAN_OperatingModeRequest`, `CAN_TransmitStatus`, `CAN_CancelTransmit`, `CAN_MessagePending`, the mode argument of the CRYP drivers).
- Key sizes other than 128, 192 and 256: the `switch` leaves the key size field of an automatic structure uninitialised, and its value is not determined by the code.
- Identifiers wider than 11 or 29 bits in `CAN_Transmit`: the structure's documentation excludes them and the code does not check.
- CrypDrivers.BlockLoop: lengths above 2^32 minus the block size are excluded by precondition, because the loop does not end on them (LoopEnds); input and output must lie in memory as whole blocks, as the loop reads them.
- CrypDrivers.WaitWhileBusy: time passes only at status reads; a device that makes progress between two other accesses is covered by a shorter latency.
- CrypTheorems.SwitchOut: the key structure handed to the save is the loaded key; SaveContext stores whatever the caller passes and cannot read the key registers.
- CrypTheorems.SwitchedRun: the other job is represented by what it leaves: any registers, schedule and memory outside the two buffers, and at most one block unread, in the core or the OUT FIFO. A job that gave up waiting for a still earlier operation, and so left its block in the IN FIFO, is not covered. DMA enables are not restored, as the source says.
- CanTransmit.CanTx.Transmit: the result flags ALST and TERR of TSR are arbitrary bits that the hardware may change at any time; their clearing by a write is not followed.
- CanFilter.CanFilter.FilterInit: the matching of frames against the filters is not modelled, only the configuration that is stored.
- CanMode.CanMode.Init: changes of MCR made by the hardware itself (automatic wake-up) are not modelled.
- Adc.Adc.SequenceLength: CR1 and CR2, which ADC_Init also writes, are not modelled.
- Gpio.Gpio.Init: the levels a pin shows between the register writes of one call are not modelled.
- `CAN_Sleep`, `*_DeInit`, `*_StructInit`, enable/disable functions and single-flag getters outside the flows above: one branch settles each.
- The other peripherals (DAC, DCMI, DBGMCU, SYSCFG, EXTI, NVIC, CRC and those of which only headers are present): no loop or shared state of their own in this repository.
