# Formal model of HSPlasma's hard cores

A Dafny 4.11 model of four parts of HSPlasma, with proofs. `dafny verify dfyconfig.toml` checks all of it.

* **The Rijndael library** (`core/3rdPartyLibs/rijndael.cpp`): the cipher object with its buffers, loops and tables.
  `Gf256` is the arithmetic of FIPS 197, `RijndaelTables` the literal tables, `TableFacts` what their entries mean,
  `Aes` and `KeySchedule` the standard's cipher, inverse cipher and key expansion, `TableRounds` the refinement of the
  rounds by table look-ups, `Blocks`, `BlockModes` and `Cfb` the modes of SP 800-38A and the padding of RFC 5652 over
  any pair of inverse block functions, `Rijndael` the class, `ZeroKey` the cipher's result for the zero key and block,
  `Fips197` the standard a second time on single bytes, and `Sessions` what holds over several calls.
* **The network message codec** (`net/pnNetMsg.cpp`, `net/pnSocket.cpp`): `NetCodec` is the wire format of
  schema-described messages as functions, `WireFormat` what its bytes are, `NetMsg` the five routines that walk a
  schema, over slots, a heap of buffers and a socket. `AgeInfo` adds the fixed-width records of `net/pnNetMsg.h`.
  `LittleEndian` has numbers and code units as bytes.
* **Script archives** (`Tools/src/PyPack.cpp`): `Encoding` is UTF-8 and the fallback to Latin-1, `SafeString` the
  scrambled strings of streams, `PakFormat` the archive layout next to what the packer computes, `PakTheorems` their
  relation, `PakNames` the stored names and the paths, `PakText` what holds for paths in UTF-8, `PakBytes` what the
  bytes of an archive are, and `PyPack` the stream class and the actions create, add and extract.
* **The reference tracer** (`Python/scripts/tracekey.py`): `TraceKey`.

`Wrappers` holds the option type. Methods are proved against functions; the theorems are about those functions. What the
functions mean for single bits and bytes is stated apart from them, with literal positions, weights and masks.

## How the source is rendered

* A C++ object or buffer is a class or an array, updated in place by the same loops. Pointers into a buffer are offsets.
* In the cipher, bytes and words are bit vectors, a word being four consecutive bytes, so that the exclusive or of two
  unsigned ints is that of their bytes. The sixteen shift statements of 1-bit CFB are a loop over the bytes.
  Enumeration values that no constructor names are `OtherMode`, `OtherDirection` and `OtherLength`.
* In the formats, bytes are integers below 256. Every 32-bit and 16-bit wrap-around is written out as a remainder.
* The message union of a number and two pointers is a datatype; the heap's ghost set `live` holds the buffers in use,
  which is what `new[]` and `delete[]` change. `delete[]` of a buffer that is not live is not verifiable.
* Strings are bytes. The string library is not part of this model. Its check of UTF-8 is a parameter of the stream
  version (`Validity`), of which no more is assumed than that ASCII passes; `Encoding.Utf8` is the check of RFC 3629.
* An exception ends the action: `None`, or for an extraction the files written so far and a failure flag.
* Machines are little-endian. A `recv` delivers the bytes asked for; a receive is modelled when the stream holds them.

## Where the code differs from its documentation

* ECB `padDecrypt` rejects a padding of sixteen, so a padded message comes back if and only if its length is not a
  multiple of 16 (`Sessions.EcbPaddedRoundTrip`), and accepts any text that ends in a zero byte, which `padEncrypt`
  never makes (`Sessions.EcbPaddedConverse`); CBC is right for all lengths.
* CBC `blockEncrypt` encrypts a block even if the input length is below 128 bits: `AtLeastOne` in the contract of
  `BlockEncrypt`.
* 1-bit CFB works on what `outBuffer` already holds and never advances its pointers. The contracts say what each call
  does for any number of blocks (as many passes over one block). Whatever the key and the IV, it is the standard's mode
  for all data if and only if there is at most one block (`Sessions.CfbStandardForOneBlock`).
* In 1-bit CFB, `blockDecrypt` runs the encryption on the keys that the object holds. Set up for encryption, although
  the header says that an instance works in one direction, it gives a block back. Set up for decryption, it gives every
  block under an IV back if and only if the two sets of keys produce the same first bit from every register that a block
  can lead to from that IV (`Sessions.CfbWithDecryptionKeys`); with the zero key they do not, and at the zero IV no
  block ever comes back (`Sessions.EncryptThenDecryptCfbWithDecryptionKeys`).
* `padEncrypt` on an object set up for decryption returns "not initialized", not "bad direction".
* The length field of a string wraps at 65536 code units. Such a string arrives cut, and the unused end of the sender's
  buffer follows the message; neither happens if and only if all strings are shorter (`NetCodec.MessageRoundTrip`,
  `NetMsg.Transfer`, and for sequences of messages `NetCodec.StreamRoundTrip`).
* The buffer of a received age list is as long as its count says if and only if the product fits 32 bits, which the
  reader does not check (`AgeInfo.AgeListBuffer`).
* A string is read as it was written if and only if it fits its length field, is valid, and in the Prime form does not
  begin beyond ASCII (`SafeString.StrRoundTrip`). A packed name in UTF-8 that begins beyond ASCII is recovered with its
  bytes inverted; as these are no UTF-8, their Latin-1 reading is taken, which is longer (`PakText.SpoiledName`). Adding
  to an archive equals creating it anew if and only if all old names are readable (`PakTheorems.AddIsCreate`); for paths
  in UTF-8 this means that none begins beyond ASCII (`PakText.AddIsCreateForPaths`). The spoiled names stay as they are
  from then on (`PakText.AddSettles`).
* An age text survives a trip if and only if it is shorter than its field and has no NUL.

## Model

| member | source | states |
|---|---|---|
| TableFacts.SBoxIsAffineOfInverse | core/3rdPartyLibs/rijndael.cpp:44-62 | every entry of S is the affine image of the inverse in GF(2^8), 0 for 0 (FIPS 197, 5.1.1) |
| TableFacts.S5UndoesS | core/3rdPartyLibs/rijndael.cpp:609-674 | S5 is the inverse of S on every byte |
| TableFacts.T1Entry | core/3rdPartyLibs/rijndael.cpp:65-131 | T1[x] is (2, 1, 1, 3) times S[x] |
| TableFacts.T2Entry | core/3rdPartyLibs/rijndael.cpp:133-199 | T2[x] is (3, 2, 1, 1) times S[x] |
| TableFacts.T3Entry | core/3rdPartyLibs/rijndael.cpp:201-267 | T3[x] is (1, 3, 2, 1) times S[x] |
| TableFacts.T4Entry | core/3rdPartyLibs/rijndael.cpp:269-335 | T4[x] is (1, 1, 3, 2) times S[x] |
| TableFacts.T5Entry | core/3rdPartyLibs/rijndael.cpp:337-403 | T5[x] is (14, 9, 13, 11) times S5[x] |
| TableFacts.T6Entry | core/3rdPartyLibs/rijndael.cpp:405-471 | T6[x] is (11, 14, 9, 13) times S5[x] |
| TableFacts.T7Entry | core/3rdPartyLibs/rijndael.cpp:473-539 | T7[x] is (13, 11, 14, 9) times S5[x] |
| TableFacts.T8Entry | core/3rdPartyLibs/rijndael.cpp:541-607 | T8[x] is (9, 13, 11, 14) times S5[x] |
| TableFacts.U1Entry | core/3rdPartyLibs/rijndael.cpp:677-743 | U1[x] is (14, 9, 13, 11) times x |
| TableFacts.U2Entry | core/3rdPartyLibs/rijndael.cpp:745-811 | U2[x] is (11, 14, 9, 13) times x |
| TableFacts.U3Entry | core/3rdPartyLibs/rijndael.cpp:813-879 | U3[x] is (13, 11, 14, 9) times x |
| TableFacts.U4Entry | core/3rdPartyLibs/rijndael.cpp:881-947 | U4[x] is (9, 13, 11, 14) times x |
| TableFacts.RconIsPower | core/3rdPartyLibs/rijndael.cpp:949-956 | all thirty round constants are the powers of x in GF(2^8) |
| TableFacts.KeyColumn | core/3rdPartyLibs/rijndael.cpp:1437-1453 | four U look-ups XORed are InvMixColumns of a round key word |
| Gf256.MixColumnInverse | core/3rdPartyLibs/rijndael.cpp:1478-1497 | InvMixColumns and MixColumns undo each other on every column |
| Gf256.InvMixColumnIsLinear | core/3rdPartyLibs/rijndael.cpp:1437-1453 | InvMixColumns distributes over XOR, which is why transformed keys work |
| TableRounds.EncryptStepRefines | core/3rdPartyLibs/rijndael.cpp:1478-1527 | a round of T1..T4 look-ups is MixColumns, ShiftRows, SubBytes; the last one, through T1's second byte, lacks MixColumns |
| TableRounds.DecryptStepRefines | core/3rdPartyLibs/rijndael.cpp:1553-1603 | a round of T5..T8 look-ups is InvMixColumns, InvShiftRows, InvSubBytes; the last one, through S5, lacks InvMixColumns |
| Aes.EquivalentInverseCipher | core/3rdPartyLibs/rijndael.cpp:1437-1453 | decrypting with keys 1..Nr-1 transformed computes the straightforward inverse cipher, for any keys (FIPS 197, 5.3.5) |
| Aes.CipherInverse | core/3rdPartyLibs/rijndael.cpp:1455-1604 | cipher and inverse cipher undo each other in both orders, for any round keys |
| Blocks.DecryptorInvertsEncryptor | core/3rdPartyLibs/rijndael.cpp:1455-1604 | on 16-byte blocks, decrypt with rewritten keys and encrypt with the plain ones are inverse in both orders |
| KeySchedule.NextWindow | core/3rdPartyLibs/rijndael.cpp:1393-1421 | how word j of a key-sized window of the expansion follows from the window before, for Nk = 4, 6, 8 |
| KeySchedule.FirstWordOfPass | core/3rdPartyLibs/rijndael.cpp:1395-1399 | the five byte updates of a pass add the rotated, substituted last word and the round constant |
| KeySchedule.MiddleWordOfPass | core/3rdPartyLibs/rijndael.cpp:1412-1415 | the four byte updates in the middle of a pass over an eight-word key add the substituted word |
| Fips197.ExpansionByBytes | core/3rdPartyLibs/rijndael.cpp:1358-1435 | the expansion on words is, byte by byte, that of FIPS 197, 5.2, stated on single bytes of the key |
| Fips197.CipherByBytes | core/3rdPartyLibs/rijndael.cpp:1455-1528 | the block function of an object with the expanded key is the cipher of FIPS 197, stated on the single bytes of key and block |
| Rijndael.RconInRange | core/3rdPartyLibs/rijndael.cpp:1393-1399 | the round constant index stays below 10 while round keys are missing |
| Rijndael.Rijndael.KeySched | core/3rdPartyLibs/rijndael.cpp:1358-1435 | the in-place sliding window fills exactly 4(Nr+1) words with the key expansion of FIPS 197, 5.2 |
| Rijndael.Rijndael.KeyEncToDec | core/3rdPartyLibs/rijndael.cpp:1437-1453 | rewrites the round keys 1..Nr-1 by InvMixColumns and leaves the other two |
| Rijndael.Rijndael.EncryptOne | core/3rdPartyLibs/rijndael.cpp:1455-1528 | writes the FIPS 197, 5.1 cipher of a block at its place, also when input and output are one array; changes nothing else |
| Rijndael.Rijndael.DecryptOne | core/3rdPartyLibs/rijndael.cpp:1530-1604 | the same for the equivalent inverse cipher with the object's keys |
| Rijndael.Rijndael.Init | core/3rdPartyLibs/rijndael.cpp:974-1040 | error code per bad argument in the order checked; valid if and only if successful, then with the mode, IV and round keys of the arguments; for encryption, byte i of the key is byte i % 4 of word i / 4, and the expansion follows |
| Rijndael.Rijndael.SetKey | core/3rdPartyLibs/rijndael.cpp:1029-1036 | arranges the key in a matrix, expands it, and rewrites it for decryption |
| Rijndael.ReturnCodes | core/3rdPartyLibs/rijndael.h:75-82 | the return codes are those of the header |
| Rijndael.Rijndael.CbcEncryptBlocks | core/3rdPartyLibs/rijndael.cpp:1063-1080 | the CBC loop chains through its own output, also in place, and writes one block for a count of 0 |
| Rijndael.Rijndael.CbcChainBlocks | core/3rdPartyLibs/rijndael.cpp:1154-1166 | the loop of padEncrypt, with the pointer to the block to chain to next |
| Rijndael.Rijndael.CbcDecryptBlocks | core/3rdPartyLibs/rijndael.cpp:1207-1235 | the CBC decryption loop, also in place, keeping the last ciphertext block |
| Rijndael.Rijndael.CfbEncryptBits | core/3rdPartyLibs/rijndael.cpp:1084-1116 | 128 rounds of key byte, output bit and register shift encrypt the bits of outBuffer in 1-bit CFB |
| Rijndael.Rijndael.CfbDecryptBits | core/3rdPartyLibs/rijndael.cpp:1239-1271 | 128 rounds XOR the key stream of the input bits into outBuffer, also when they are one buffer |
| Rijndael.Rijndael.BlockEncrypt | core/3rdPartyLibs/rijndael.cpp:1042-1125 | every return code, and the whole output buffer for each mode; IV and round keys stay |
| Rijndael.Rijndael.BlockDecrypt | core/3rdPartyLibs/rijndael.cpp:1185-1280 | every return code, and the whole output buffer for each mode; IV and round keys stay |
| Rijndael.Rijndael.PadEncrypt | core/3rdPartyLibs/rijndael.cpp:1127-1183 | every return code; the padded encryption, 16 (n/16 + 1) bytes, and nothing else in the buffer |
| Rijndael.Rijndael.PadDecrypt | core/3rdPartyLibs/rijndael.cpp:1282-1351 | every return code; the unpadded text and its length, the corruption code with the leading blocks written, or an unchanged buffer for an invalid object or direction |
| BlockModes.CbcChaining | core/3rdPartyLibs/rijndael.cpp:1063-1080 | C_i = E(P_i xor C_(i-1)) with C_0 = IV (SP 800-38A, 6.2) |
| BlockModes.CbcByBytes | core/3rdPartyLibs/rijndael.cpp:1063-1080 | every block is E of bytes that are the exclusive or of those of the text and of the block before, or the IV |
| BlockModes.CbcDecryptByBytes | core/3rdPartyLibs/rijndael.cpp:1207-1235 | every byte is the exclusive or of one of D of the block and one of the block before, or the IV |
| BlockModes.EcbByBlocks | core/3rdPartyLibs/rijndael.cpp:1199-1205 | block i of the result comes from block i |
| BlockModes.FirstBlocksByBytes | core/3rdPartyLibs/rijndael.cpp:1052-1062 | the blocks that are processed stand at the beginning of the input |
| BlockModes.CbcRoundTrip | core/3rdPartyLibs/rijndael.cpp:1207-1235 | CBC decryption undoes encryption for any inverse pair of block functions and any number of blocks |
| BlockModes.CbcConverse | core/3rdPartyLibs/rijndael.cpp:1207-1235 | and encryption undoes decryption |
| BlockModes.EcbRoundTrip | core/3rdPartyLibs/rijndael.cpp:1199-1205 | the same for ECB |
| BlockModes.UnpadCbcOfPad | core/3rdPartyLibs/rijndael.cpp:1336-1342 | the CBC check accepts every padded text and gives it back |
| BlockModes.PadOfUnpadCbc | core/3rdPartyLibs/rijndael.cpp:1336-1342 | a text the CBC check accepts is the padding of the result, and no other text is accepted |
| BlockModes.UnpadEcbOfPad | core/3rdPartyLibs/rijndael.cpp:1306-1313 | the ECB check gives back a padded text if and only if its length is not a multiple of 16 |
| BlockModes.PadOfUnpadEcb | core/3rdPartyLibs/rijndael.cpp:1306-1313 | the ECB check accepts exactly the paddings of messages with an incomplete block and every text that ends in a zero byte; only the former are the padding of the result |
| BlockModes.PadByBytes | core/3rdPartyLibs/rijndael.cpp:1147-1151 | the text, followed by 16 - n % 16 bytes with that value |
| BlockModes.UnpadByBytes | core/3rdPartyLibs/rijndael.cpp:1306-1343 | CBC takes off n bytes of value n for n from 1 to 16, ECB for n below 16 or nothing before a zero byte; nothing else is accepted |
| Cfb.ShiftInIsShift | core/3rdPartyLibs/rijndael.cpp:1097-1112 | the byte shifts are a left shift of the 128-bit register with a serial input bit |
| Cfb.CfbEncryptBit | core/3rdPartyLibs/rijndael.cpp:1084-1116 | c_k = p_k xor the first bit of E(register k) (SP 800-38A, 6.3) |
| Cfb.CfbRoundTrip | core/3rdPartyLibs/rijndael.cpp:1236-1273 | decryption with the same block function restores the plaintext bits |
| Cfb.CfbConverse | core/3rdPartyLibs/rijndael.cpp:1236-1273 | and encryption undoes decryption, so that any bits are a ciphertext |
| Cfb.RegisterHolds | core/3rdPartyLibs/rijndael.cpp:1097-1112 | after up to 128 ciphertext bits the register holds the rest of the IV and then these bits (SP 800-38A, 6.3) |
| Cfb.CfbByMasks | core/3rdPartyLibs/rijndael.cpp:1084-1116 | a ciphertext bit differs from that of the text if and only if E of the register, given bit by bit, begins with a byte of 128 or more |
| Sessions.PassesByMasks | core/3rdPartyLibs/rijndael.cpp:1081-1118 | n blocks of encryption are n passes over the first one, each with the result of the one before as its IV; the rest of the buffer stays |
| Sessions.ReversePassesByMasks | core/3rdPartyLibs/rijndael.cpp:1236-1273 | the same for decryption, in place or from another buffer |
| Sessions.CbcPaddedRoundTrip | core/3rdPartyLibs/rijndael.cpp:1127-1351 | padDecrypt of padEncrypt's output returns the message and its length, for every message |
| Sessions.CbcPaddedConverse | core/3rdPartyLibs/rijndael.cpp:1315-1343 | what padDecrypt accepts is exactly what padEncrypt produces, and re-encrypting the accepted text reproduces it |
| Sessions.EcbPaddedRoundTrip | core/3rdPartyLibs/rijndael.cpp:1306-1313 | the ECB round trip holds if and only if the length is not a multiple of 16, else padDecrypt reports corruption |
| Sessions.EcbPaddedConverse | core/3rdPartyLibs/rijndael.cpp:1306-1313 | what padDecrypt accepts is what padEncrypt makes of a message with an incomplete block, or decrypts to a text ending in zero; re-encrypting gives the ciphertext back in the first case only |
| Sessions.PaddedPrefixIsBlockEncryption | core/3rdPartyLibs/rijndael.cpp:1154-1166 | the first n blocks of a padded CBC encryption are the block encryption of the first n blocks |
| Sessions.BlockRoundTrip | core/3rdPartyLibs/rijndael.cpp:1199-1235 | block decryption undoes block encryption in ECB and CBC for any round keys |
| Sessions.CfbOneBlock | core/3rdPartyLibs/rijndael.cpp:1081-1118 | one block of the code's CFB is the standard's, and decrypting in place restores the buffer |
| Sessions.CfbStandardForOneBlock | core/3rdPartyLibs/rijndael.cpp:1081-1118 | with any key and IV, the code's CFB over n blocks is the standard's for all data if and only if n is at most 1 |
| Sessions.EncryptThenDecrypt | core/3rdPartyLibs/rijndael.h:38-62 | the usage example: init, padEncrypt, init, padDecrypt returns the message, in ECB exactly unless the length is a multiple of 16 |
| Sessions.EncryptThenDecryptCfb | core/3rdPartyLibs/rijndael.cpp:1236-1273 | one block encrypted and decrypted in place in CFB restores the buffer |
| Sessions.CfbWithDecryptionKeys | core/3rdPartyLibs/rijndael.cpp:1236-1273 | with any key and IV, every block that is decrypted with the keys of a Decrypt object comes back if and only if both directions give the same first bit on every register that a block can lead to |
| Sessions.EncryptThenDecryptCfbWithDecryptionKeys | core/3rdPartyLibs/rijndael.cpp:1236-1273 | with the zero key and IV, an object set up for decryption never gives the block back |
| Sessions.ZeroKeyDirections | core/3rdPartyLibs/rijndael.cpp:1236-1273 | with the zero key the two directions differ in the first bit on the zero register |
| NetCodec.SizeExact | net/pnNetMsg.cpp:115-155 | NCMessageSize is never below the bytes that sendMsg writes, and equal if and only if no string has 65536 code units |
| WireFormat.SizeIs | net/pnNetMsg.cpp:115-155 | the count is the bytes of the message and those of the code units that wrapped lengths leave out |
| WireFormat.MessageLayout | net/pnSocket.cpp:434-497 | the bytes of every field by its kind, one field behind the other, numbers with the low byte first |
| WireFormat.MatchingArrays | net/pnSocket.cpp:434-497 | a counted array has the element size of the last count field times its value, in 32 bits, and none without a count since the last such array; fixed arrays have their own |
| WireFormat.DecodedArrays | net/pnSocket.cpp:517-583 | so do the arrays that are received, whatever is received |
| NetCodec.FieldRoundTrip | net/pnSocket.cpp:515-583 | one field decodes to its value, numbers cut to their width and strings to their 16-bit length, and both sides leave the same size and count |
| NetCodec.MessageRoundTrip | net/pnSocket.cpp:506-587 | recvMsg of a payload followed by anything leaves exactly what follows and gives the data, numbers modulo their width and strings cut to their wrapped length; strings are whole if and only if all have fewer than 65536 code units |
| NetCodec.ReceivedIsCut | net/pnSocket.cpp:440-452 | a wrapped string length, and nothing else, keeps data from arriving as it was cut to the widths |
| NetCodec.MessageConverse | net/pnSocket.cpp:415-504 | decoded data is sendable if and only if its strings have no NUL, and sending it gives the bytes it came from |
| NetCodec.ReceivedIsSendable | net/pnSocket.cpp:415-587 | data as received can be sent on, in the same bytes |
| NetCodec.PrefixFree | net/pnSocket.cpp:415-504 | no payload is a proper prefix of another of its schema, and equal ones arrive alike |
| NetCodec.StreamRoundTrip | net/pnSocket.cpp:415-587 | any sequence of messages of a protocol is taken apart as it was sent if and only if no string has 65536 code units, whatever the unused ends of the buffers hold |
| NetMsg.AllocBasic | net/pnNetMsg.cpp:21-33 | a fresh live buffer of size times count bytes for numbers of 1, 2 or 4 bytes, else an exception |
| NetMsg.NCAllocMessage | net/pnNetMsg.cpp:35-70 | nothing for a null message; an exception if and only if an array has numbers of another size; else the new live buffers are exactly the slot array and those in pointer slots, all fresh and distinct |
| NetMsg.NCFreeMessage | net/pnNetMsg.cpp:80-113 | exactly the slot array and the buffers of the slots are released, each once; counts and scalars never |
| NetMsg.NCMessageSize | net/pnNetMsg.cpp:115-155 | the loop with its size and count variables computes the size of the format |
| NetMsg.SendField | net/pnSocket.cpp:434-497 | one step of sendMsg appends the bytes of the field and updates size and count |
| NetMsg.SendMsg | net/pnSocket.cpp:415-504 | sends a buffer of 2 plus NCMessageSize bytes that starts with the id and the payload, equal to them if strings are short; releases its buffer; false without a message |
| NetMsg.RecvField | net/pnSocket.cpp:517-583 | one step of recvMsg fills the slot with the decoded value in its old or a fresh live buffer |
| NetMsg.RecvMsg | net/pnSocket.cpp:506-587 | the slots hold the decoded data, exactly the message is taken from the stream, and the new live buffers are the message's own |
| NetMsg.OnTheWire | net/pnSocket.cpp:425-429 | the two-byte id and the data as received are found at the front of the sent bytes |
| NetMsg.Transfer | net/pnSocket.cpp:415-587 | sending and receiving leaves a copy of the data as received, in buffers of its own, and behind the message what is unused of the sender's buffer; nothing is cut or unused if and only if strings are short |
| NetMsg.AllocateAndFree | net/pnNetMsg.cpp:35-113 | allocating succeeds if and only if every array can be allocated, and then freeing leaves the live buffers as they were |
| NetMsg.ReceiveAndFree | net/pnSocket.cpp:506-587 | so does receiving and freeing, whatever the stream holds |
| AgeInfo.WriteUtf16 | net/pnNetMsg.h:81-89 | writes the text cut to n - 1 units and zero-filled to 2n bytes, changes nothing behind, advances 2n |
| AgeInfo.ReadUtf16 | net/pnNetMsg.h:71-79 | reads the text up to the first NUL of n units, the last one overwritten, advances 2n |
| AgeInfo.UnpaddedOfPadded | net/pnNetMsg.h:71-89 | a text read back is the text cut to n - 1 units and at its first NUL; unchanged if and only if short and NUL-free |
| AgeInfo.UuidRoundTrip | core/Sys/plUuid.cpp:53-76 | the sixteen bytes of an id are read back as written |
| AgeInfo.UuidFrontByBytes | core/Sys/plUuid.cpp:53-59 | the parts of an id that is read are bytes 0 to 3, 4 and 5, 6 and 7, low byte first, and 8 to 15 |
| AgeInfo.TextFrontByBytes | net/pnNetMsg.h:71-79 | a text is read unit by unit, low byte first, up to the first NUL or the last unit but one |
| AgeInfo.ReadUuid | core/Sys/plUuid.cpp:53-59 | takes the four parts of an id out of a buffer |
| AgeInfo.NetAgeInfo.Write | net/pnNetMsg.cpp:180-194 | fills exactly Stride bytes with the record, whatever stands around |
| AgeInfo.NetAgeInfo.Read | net/pnNetMsg.cpp:164-178 | takes the record at an offset |
| AgeInfo.RecordRoundTrip | net/pnNetMsg.cpp:164-194 | read undoes write up to cutting texts, and exactly if and only if all texts are within their limits |
| AgeInfo.RecordByBytes | net/pnNetMsg.cpp:180-194 | which bytes of the record hold which field, down to code units and numbers |
| AgeInfo.ReadRecordsSurvive | net/pnNetMsg.cpp:164-194 | a record read from any bytes is within its limits and survives the next trip |
| AgeInfo.RecordAt | net/auth/pnAuthClient.cpp:228-236 | in a list of records, record i stands at i strides |
| AgeInfo.AgeListBuffer | net/auth/pnAuthClient.cpp:228-236 | the buffer of a received list is as long as its count says if and only if the product fits 32 bits |
| AgeInfo.ReadAges | net/auth/pnAuthClient.cpp:228-236 | the loop over a received age list that is as long as its count says reads each record at its stride |
| AgeInfo.ReceiveAges | net/auth/pnAuthClient.cpp:228-236 | of a list of records, as many as counted are received as they were written, up to cutting texts |
| SafeString.StrTrip | core/Stream/hsStream.cpp:121-160 | what readSafeStr makes of any written name, Latin-1 fallback included, and that it takes exactly its bytes |
| SafeString.StrRoundTrip | core/Stream/hsStream.cpp:121-160 | a string comes back unchanged if and only if it fits the length field, is valid and, in the Prime form, does not begin beyond ASCII |
| SafeString.AccentIsLost | core/Stream/hsStream.cpp:145-148 | a two-byte name in UTF-8 that comes back as two other characters |
| SafeString.SpoiledIsSeen | core/Stream/hsStream.cpp:282-310 | a string that is not read as it was written is written in other bytes from then on |
| SafeString.HeardSettles | core/Stream/hsStream.cpp:152-160 | what was read once, and fits, is read unchanged ever after |
| SafeString.StrBytesPrefix | core/Stream/hsStream.cpp:282-310 | no written string is a proper beginning of another one |
| Encoding.DecodedIsText | core/Stream/hsStream.cpp:152-160 | the fallback keeps valid bytes and makes others longer, at most twice as long |
| Encoding.Utf8IsEncoding | core/Stream/hsStream.cpp:152-160 | the check accepts exactly the encodings of sequences of characters (RFC 3629, 3 and 4) |
| Encoding.LatinIsEncoding | core/Stream/hsStream.cpp:152-160 | the fallback is the encoding of the characters that have the numbers of the bytes |
| SafeString.StrBytesInjective | core/Stream/hsStream.cpp:282-310 | different strings that fit are written differently |
| SafeString.KeyedTwice | core/Stream/hsStream.cpp:135-139 | the keyed scrambling undoes itself |
| SafeString.XorByBits | core/Stream/hsStream.cpp:135-139 | a bit of the combined byte is set if and only if the two bits differ |
| SafeString.WrittenByBytes | core/Stream/hsStream.cpp:282-310 | the two length bytes and every scrambled byte of a written string, in both forms |
| SafeString.ReadByBytes | core/Stream/hsStream.cpp:121-160 | what is read of any length, marked or not, and any bytes |
| SafeString.ReadNothing | core/Stream/hsStream.cpp:121-128 | a zero length, and streams that end before the string |
| PakTheorems.ImageIsArchive | Tools/src/PyPack.cpp:165-192 | the packer's 32-bit offsets put every size word where the index says, below 4 GiB |
| PakTheorems.CreatedIsArchive | Tools/src/PyPack.cpp:141-193 | creating fails if and only if a file is below eight bytes, and else gives the archive of the files |
| PakTheorems.FileStandsAt | Tools/src/PyPack.cpp:184-192 | size word and body of file i stand at its recorded position |
| PakTheorems.OffsetsExact | Tools/src/PyPack.cpp:165-188 | a recorded offset is the place of the size word if and only if no name is too long for its length field |
| PakTheorems.IndexTrip | Tools/src/PyPack.cpp:307-311 | the index reads back as names and positions, with the rest left |
| PakTheorems.ExtractedFromCut | Tools/src/PyPack.cpp:307-333 | extraction of an archive that lost the end of its last body never seeks, truncates that body only, and brings out all entries |
| PakTheorems.ExtractIsInverse | Tools/src/PyPack.cpp:307-333 | extracting a whole archive never seeks or truncates, and gives its entries if and only if the names are readable: short, valid and, in the Prime form, not beginning beyond ASCII |
| PakTheorems.CutSpoilsLastOnly | Tools/src/PyPack.cpp:316-322 | cutting inside the last body affects only that entry, which keeps its prefix |
| PakTheorems.AddedToCut | Tools/src/PyPack.cpp:194-284 | adding to an archive, even a cut one, packs what can be read of it, under the names that are heard, before the new files, or fails on a short file |
| PakTheorems.AddIsCreate | Tools/src/PyPack.cpp:194-284 | adding ys to the archive of xs gives byte for byte the archive of xs ++ ys if and only if the old names are readable |
| PakTheorems.AddSpoilsAccent | Tools/src/PyPack.cpp:220-225 | a one-file archive that adding nothing changes |
| PakTheorems.CreateOfExtract | Tools/src/PyPack.cpp:141-333 | packing the extracted files restores the archive byte for byte |
| PakBytes.ArchiveByBytes | Tools/src/PyPack.cpp:184-192 | where the count, each name, each offset, each size and each body stand in an archive, words with the low byte first |
| PakBytes.BodyByBytes | Tools/src/PyPack.cpp:316-322 | what is read at any offset of any stream below 4 GiB: the body, what there is of it, or nothing where 32 bits overflow |
| PakBytes.ExtractedAtOffsets | Tools/src/PyPack.cpp:313-333 | whatever stream and index: each entry is extracted from its own offset, in order, up to the first failure |
| PakBytes.RebasedAtOffsets | Tools/src/PyPack.cpp:226-237 | whatever stream and index: old bodies are read at their offsets, which then count from the old base, in 32 bits |
| PakBytes.PathByBytes | Tools/src/PyPack.cpp:323-326 | the path of an extracted file: directory, one more separator for every file, name and c |
| PakNames.PackedNamesAreStored | Tools/src/PyPack.cpp:147-155 | every name that is packed ends in .py and has no separator |
| PakNames.PackedPaths | Tools/src/PyPack.cpp:147-150 | a path is packed if and only if it ends in pyc, in either case, behind a dot or as the whole path |
| PakNames.PackedName | Tools/src/PyPack.cpp:147-155 | the name is what stands between directory and extension, and .py |
| PakNames.PathOfParts | Tools/src/PyPack.cpp:147-155 | every longer path of this kind has such parts |
| PakNames.NameTrip | Tools/src/PyPack.cpp:147-155 | the file extracted for such a name, in any directory, would be packed under that name |
| PakNames.InputsAreFiles | Tools/src/PyPack.cpp:145-168 | the loop over the files names and reads them one by one, which equals naming all and then recording their bodies, failures included |
| PakNames.NamedExtracts | Tools/src/PyPack.cpp:307-333 | the files of an extraction are packed as the entries that they came from |
| PakText.SpoiledName | core/Stream/hsStream.cpp:141-160 | a stored name that begins beyond ASCII is heard as the Latin-1 reading of its inverted bytes, and longer |
| PakText.StoredNameIsText | Tools/src/PyPack.cpp:147-155 | the name stored for a path in UTF-8 is UTF-8 |
| PakText.AddIsCreateForPaths | Tools/src/PyPack.cpp:194-284 | for paths in UTF-8, adding equals creating anew if and only if, in the Prime form, no old name begins beyond ASCII |
| PakText.AddSettles | Tools/src/PyPack.cpp:194-284 | adding nothing replaces spoiled names by what is heard of them, and adding nothing once more changes nothing |
| PyPack.FileStream.ReadSafeStr | core/Stream/hsStream.cpp:121-160 | refines the string at the front of the stream, check and fallback included, failing at the end |
| PyPack.FileStream.WriteSafeStr | core/Stream/hsStream.cpp:282-310 | appends the scrambled string |
| PakFormat.PycBodyOfFile | Tools/src/PyPack.cpp:161-164 | the body of a file below 4 GiB is what stands behind eight bytes, if it has as many |
| PyPack.ReadPyc | Tools/src/PyPack.cpp:161-164 | the bytes behind the eight-byte header; fails on shorter files, whose size wraps |
| PyPack.AppendFiles | Tools/src/PyPack.cpp:145-168 | the loop over the files: extension check, name, body and the running offs and baseOffs |
| PyPack.WritePak | Tools/src/PyPack.cpp:184-192 | the two loops write the image of the records |
| PyPack.CreatePak | Tools/src/PyPack.cpp:141-193 | the create action, from paths and contents, computes what the theorems speak of, and fails if a path is not that of a compiled script |
| PyPack.ReadIndex | Tools/src/PyPack.cpp:218-225 | the index loop with its running baseOffs; the position ends behind the index |
| PyPack.ReadBody | Tools/src/PyPack.cpp:316-322 | size word, the 32-bit overrun check, truncation and body |
| PyPack.RebaseObjects | Tools/src/PyPack.cpp:226-237 | the loop that reads old bodies and rebases old offsets in place |
| PyPack.ReadOld | Tools/src/PyPack.cpp:216-237 | both loops over an old archive: its records, their bodies and the running offs and baseOffs |
| PyPack.AddToPak | Tools/src/PyPack.cpp:194-284 | the add action, from paths and contents, computes what the theorems speak of, and fails if a path is not that of a compiled script |
| PyPack.ExtractPak | Tools/src/PyPack.cpp:285-333 | the extract action writes a file at the path of each entry, headed by magic number and time of writing, as far as it gets, and warns as often as it truncates |
| PyPack.ExtractAndCreate | Tools/src/PyPack.cpp:141-333 | extracting into any directory and packing again reproduces the archive |
| PyPack.CreateThenAdd | Tools/src/PyPack.cpp:141-284 | packing in two steps equals packing at once |
| TraceKey.LinesAreChains | Python/scripts/tracekey.py:148-160 | a line is printed if and only if a chain of references without repetition leads from the start to its key, at the depth of its indent |
| TraceKey.SimpleChain | Python/scripts/tracekey.py:148-160 | any chain can be cut to one without repetition |
| TraceKey.PrintedAreReaching | Python/scripts/tracekey.py:148-160 | the printed keys are exactly the start and all page keys that reach it by a chain of references, cycles or not |
| TraceKey.IndentsShowReferences | Python/scripts/tracekey.py:148-160 | each line but the first refers to the nearest line above with a smaller indent, which is one less |
| TraceKey.ReferrersInOrder | Python/scripts/tracekey.py:148-160 | one step below a key stand exactly the keys of the page that refer to it and are not being traced, once per slot and in the order of the page |
| TraceKey.FreshShrinks | Python/scripts/tracekey.py:149-150 | what makes the search end: a page key that is pushed leaves fewer keys to push |
| TraceKey.Tracer.DumpTree | Python/scripts/tracekey.py:148-160 | terminates on every relation, appends the tree of the key to the output and restores the stack |

## Left out

- Real sockets, addresses, threads, partial delivery and the receivers around the codec: operating-system I/O.
- The `STRICT_ALIGN` branches of `rijndael.cpp`, which compute the same with other casts.
- Rijndael.Rijndael.PadEncrypt: for `inputOctets` from 2^31 - 16 on, `16*(numBlocks + 1)` overflows the source's int;
  the model returns the unbounded product.
- Sending and receiving schemas with numbers of other sizes than 1, 2 and 4 bytes: no table has them; allocating their
  arrays is modelled.
- A receive on a stream that ends inside the message; fixed arrays whose byte count wraps in `SendBasic`.
- Sessions.BlockRoundTrip: says nothing about 1-bit CFB over more than one block, where the code departs from the mode.
- AgeInfo.ReadAges: presumes a buffer as long as the count says; `AgeInfo.AgeListBuffer` tells when it is, and beyond
  it the source reads past its buffer.
- Conversion between UTF-8 and UTF-16, and the warning that goes with the Latin-1 fallback: strings are code units or
  bytes.
- The encryption wrapper around archives; only the string form it selects is.
- PyPack.CreatePak: the command line and files that cannot be opened are not modelled. The string library is not part
  of this model: `after_last` is taken to give the whole string and `before_last` nothing where the separator is
  missing.
- Stream versions other than Prime and Eoa, and the wide strings.
- The body of `hasRef` in `tracekey.py`: an arbitrary relation here. Its name formatting and Python's recursion limit
  are not modelled.
- Warnings and debug printing, which no data depends on; the Python bindings, which forward calls; the class-index
  tables, which are data without an algorithm; the geometry code, whose results rest on floating-point rounding.
