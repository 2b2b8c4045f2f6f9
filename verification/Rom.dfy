/**
 The firmware image on its way to the printer, in printer.cpp: encryption, padding, page streaming, and decryption for
 the CRC.
 */
module Rom {

  import Crc

  // ---- The tables, sixteen entries a row

  function EncryptionRow0(low: bv8): bv8 {
    if low == 0 then 0xAC else if low == 1 then 0x9C else if low == 2 then 0xA4 else if low == 3 then 0x1A
        else if low == 4 then 0x78 else
    if low == 5 then 0xFA else if low == 6 then 0xB8 else if low == 7 then 0x2E else if low == 8 then 0x54
        else if low == 9 then 0xC8 else
    if low == 10 then 0x46 else if low == 11 then 0x50 else if low == 12 then 0xD4 else if low == 13 then 0x06
        else if low == 14 then 0xFC else
    0x28
  }

  function EncryptionRow1(low: bv8): bv8 {
    if low == 0 then 0xD2 else if low == 1 then 0x16 else if low == 2 then 0xAA else if low == 3 then 0x40
        else if low == 4 then 0x0C else
    if low == 5 then 0xAE else if low == 6 then 0x2C else if low == 7 then 0x68 else if low == 8 then 0xDC
        else if low == 9 then 0xF2 else
    if low == 10 then 0x70 else if low == 11 then 0x80 else if low == 12 then 0x66 else if low == 13 then 0x32
        else if low == 14 then 0xE8 else
    0x0E
  }

  function EncryptionRow2(low: bv8): bv8 {
    if low == 0 then 0x4A else if low == 1 then 0x6C else if low == 2 then 0x64 else if low == 3 then 0xD6
        else if low == 4 then 0xFE else
    if low == 5 then 0x22 else if low == 6 then 0x00 else if low == 7 then 0x04 else if low == 8 then 0xCE
        else if low == 9 then 0x0A else
    if low == 10 then 0x60 else if low == 11 then 0xE0 else if low == 12 then 0xBC else if low == 13 then 0xC0
        else if low == 14 then 0xCC else
    0x3C
  }

  function EncryptionRow3(low: bv8): bv8 {
    if low == 0 then 0x5C else if low == 1 then 0xA2 else if low == 2 then 0x8A else if low == 3 then 0x8E
        else if low == 4 then 0x7C else
    if low == 5 then 0xC2 else if low == 6 then 0x74 else if low == 7 then 0x44 else if low == 8 then 0xA8
        else if low == 9 then 0x30 else
    if low == 10 then 0xE6 else if low == 11 then 0x7A else if low == 12 then 0x42 else if low == 13 then 0xC4
        else if low == 14 then 0x5A else
    0xF6
  }

  function EncryptionRow4(low: bv8): bv8 {
    if low == 0 then 0x24 else if low == 1 then 0xD0 else if low == 2 then 0x18 else if low == 3 then 0xBE
        else if low == 4 then 0x26 else
    if low == 5 then 0xB4 else if low == 6 then 0x9A else if low == 7 then 0x12 else if low == 8 then 0x8C
        else if low == 9 then 0xD8 else
    if low == 10 then 0x82 else if low == 11 then 0xE2 else if low == 12 then 0xEA else if low == 13 then 0x20
        else if low == 14 then 0x88 else
    0xE4
  }

  function EncryptionRow5(low: bv8): bv8 {
    if low == 0 then 0xEC else if low == 1 then 0x86 else if low == 2 then 0xEE else if low == 3 then 0x98
        else if low == 4 then 0x84 else
    if low == 5 then 0x7E else if low == 6 then 0xDE else if low == 7 then 0x36 else if low == 8 then 0x72
        else if low == 9 then 0xB6 else
    if low == 10 then 0x34 else if low == 11 then 0x90 else if low == 12 then 0x58 else if low == 13 then 0xBA
        else if low == 14 then 0x38 else
    0x10
  }

  function EncryptionRow6(low: bv8): bv8 {
    if low == 0 then 0x14 else if low == 1 then 0xF8 else if low == 2 then 0x92 else if low == 3 then 0x02
        else if low == 4 then 0x52 else
    if low == 5 then 0x3E else if low == 6 then 0xA6 else if low == 7 then 0x2A else if low == 8 then 0x62
        else if low == 9 then 0x76 else
    if low == 10 then 0xB0 else if low == 11 then 0x3A else if low == 12 then 0x96 else if low == 13 then 0x1C
        else if low == 14 then 0x1E else
    0x94
  }

  function EncryptionRow7(low: bv8): bv8 {
    if low == 0 then 0x6E else if low == 1 then 0xB2 else if low == 2 then 0xF4 else if low == 3 then 0x4C
        else if low == 4 then 0xC6 else
    if low == 5 then 0xA0 else if low == 6 then 0xF0 else if low == 7 then 0x48 else if low == 8 then 0x6A
        else if low == 9 then 0x08 else
    if low == 10 then 0x9E else if low == 11 then 0x4E else if low == 12 then 0xCA else if low == 13 then 0x56
        else if low == 14 then 0xDA else
    0x5E
  }

  function EncryptionRow8(low: bv8): bv8 {
    if low == 0 then 0x2F else if low == 1 then 0xF7 else if low == 2 then 0xBB else if low == 3 then 0x3D
        else if low == 4 then 0x21 else
    if low == 5 then 0xF5 else if low == 6 then 0x9F else if low == 7 then 0x0B else if low == 8 then 0x8B
        else if low == 9 then 0xFB else
    if low == 10 then 0x3F else if low == 11 then 0xAF else if low == 12 then 0x5B else if low == 13 then 0xDB
        else if low == 14 then 0x1B else
    0x53
  }

  function EncryptionRow9(low: bv8): bv8 {
    if low == 0 then 0x2B else if low == 1 then 0xF3 else if low == 2 then 0xB3 else if low == 3 then 0xAD
        else if low == 4 then 0x07 else
    if low == 5 then 0x0D else if low == 6 then 0xDD else if low == 7 then 0xA5 else if low == 8 then 0x95
        else if low == 9 then 0x6F else
    if low == 10 then 0x83 else if low == 11 then 0x29 else if low == 12 then 0x59 else if low == 13 then 0x1D
        else if low == 14 then 0x6D else
    0xCF
  }

  function EncryptionRowA(low: bv8): bv8 {
    if low == 0 then 0x87 else if low == 1 then 0xB5 else if low == 2 then 0x63 else if low == 3 then 0x55
        else if low == 4 then 0x8D else
    if low == 5 then 0x8F else if low == 6 then 0x81 else if low == 7 then 0xED else if low == 8 then 0xB9
        else if low == 9 then 0x37 else
    if low == 10 then 0xF9 else if low == 11 then 0x09 else if low == 12 then 0x03 else if low == 13 then 0xE1
        else if low == 14 then 0x0F else
    0xD3
  }

  function EncryptionRowB(low: bv8): bv8 {
    if low == 0 then 0x5D else if low == 1 then 0x75 else if low == 2 then 0xC5 else if low == 3 then 0xC7
        else if low == 4 then 0x2D else
    if low == 5 then 0xFD else if low == 6 then 0x3B else if low == 7 then 0xAB else if low == 8 then 0xCD
        else if low == 9 then 0x91 else
    if low == 10 then 0xD1 else if low == 11 then 0x4F else if low == 12 then 0x15 else if low == 13 then 0xE9
        else if low == 14 then 0x5F else
    0xCB
  }

  function EncryptionRowC(low: bv8): bv8 {
    if low == 0 then 0x25 else if low == 1 then 0xE3 else if low == 2 then 0x67 else if low == 3 then 0x17
        else if low == 4 then 0xBD else
    if low == 5 then 0xB1 else if low == 6 then 0xC9 else if low == 7 then 0x6B else if low == 8 then 0xE5
        else if low == 9 then 0x77 else
    if low == 10 then 0x35 else if low == 11 then 0x99 else if low == 12 then 0xBF else if low == 13 then 0x69
        else if low == 14 then 0x13 else
    0x89
  }

  function EncryptionRowD(low: bv8): bv8 {
    if low == 0 then 0x61 else if low == 1 then 0xDF else if low == 2 then 0xA3 else if low == 3 then 0x45
        else if low == 4 then 0x93 else
    if low == 5 then 0xC1 else if low == 6 then 0x7B else if low == 7 then 0xC3 else if low == 8 then 0xF1
        else if low == 9 then 0xD7 else
    if low == 10 then 0xEB else if low == 11 then 0x4D else if low == 12 then 0x43 else if low == 13 then 0x9B
        else if low == 14 then 0x05 else
    0xA1
  }

  function EncryptionRowE(low: bv8): bv8 {
    if low == 0 then 0xFF else if low == 1 then 0x97 else if low == 2 then 0x01 else if low == 3 then 0x19
        else if low == 4 then 0xA7 else
    if low == 5 then 0x9D else if low == 6 then 0x85 else if low == 7 then 0x7F else if low == 8 then 0x4B
        else if low == 9 then 0xEF else
    if low == 10 then 0x73 else if low == 11 then 0x57 else if low == 12 then 0xA9 else if low == 13 then 0x11
        else if low == 14 then 0x79 else
    0x39
  }

  function EncryptionRowF(low: bv8): bv8 {
    if low == 0 then 0xB7 else if low == 1 then 0xE7 else if low == 2 then 0x1F else if low == 3 then 0x49
        else if low == 4 then 0x47 else
    if low == 5 then 0x41 else if low == 6 then 0xD9 else if low == 7 then 0x65 else if low == 8 then 0x71
        else if low == 9 then 0x33 else
    if low == 10 then 0x51 else if low == 11 then 0x31 else if low == 12 then 0xD5 else if low == 13 then 0x27
        else if low == 14 then 0x7D else
    0x23
  }

  /** `romEncryptionTable` */
  function Encrypted(index: bv8): bv8 {
    var high, low := index >> 4, index & 0xF;
    if high == 0 then EncryptionRow0(low) else if high == 1 then EncryptionRow1(low)
        else if high == 2 then EncryptionRow2(low) else if high == 3 then EncryptionRow3(low) else
    if high == 4 then EncryptionRow4(low) else if high == 5 then EncryptionRow5(low)
        else if high == 6 then EncryptionRow6(low) else if high == 7 then EncryptionRow7(low) else
    if high == 8 then EncryptionRow8(low) else if high == 9 then EncryptionRow9(low)
        else if high == 10 then EncryptionRowA(low) else if high == 11 then EncryptionRowB(low) else
    if high == 12 then EncryptionRowC(low) else if high == 13 then EncryptionRowD(low)
        else if high == 14 then EncryptionRowE(low) else EncryptionRowF(low)
  }

  function DecryptionRow0(low: bv8): bv8 {
    if low == 0 then 0x26 else if low == 1 then 0xE2 else if low == 2 then 0x63 else if low == 3 then 0xAC
        else if low == 4 then 0x27 else
    if low == 5 then 0xDE else if low == 6 then 0x0D else if low == 7 then 0x94 else if low == 8 then 0x79
        else if low == 9 then 0xAB else
    if low == 10 then 0x29 else if low == 11 then 0x87 else if low == 12 then 0x14 else if low == 13 then 0x95
        else if low == 14 then 0x1F else
    0xAE
  }

  function DecryptionRow1(low: bv8): bv8 {
    if low == 0 then 0x5F else if low == 1 then 0xED else if low == 2 then 0x47 else if low == 3 then 0xCE
        else if low == 4 then 0x60 else
    if low == 5 then 0xBC else if low == 6 then 0x11 else if low == 7 then 0xC3 else if low == 8 then 0x42
        else if low == 9 then 0xE3 else
    if low == 10 then 0x03 else if low == 11 then 0x8E else if low == 12 then 0x6D else if low == 13 then 0x9D
        else if low == 14 then 0x6E else
    0xF2
  }

  function DecryptionRow2(low: bv8): bv8 {
    if low == 0 then 0x4D else if low == 1 then 0x84 else if low == 2 then 0x25 else if low == 3 then 0xFF
        else if low == 4 then 0x40 else
    if low == 5 then 0xC0 else if low == 6 then 0x44 else if low == 7 then 0xFD else if low == 8 then 0x0F
        else if low == 9 then 0x9B else
    if low == 10 then 0x67 else if low == 11 then 0x90 else if low == 12 then 0x16 else if low == 13 then 0xB4
        else if low == 14 then 0x07 else
    0x80
  }

  function DecryptionRow3(low: bv8): bv8 {
    if low == 0 then 0x39 else if low == 1 then 0xFB else if low == 2 then 0x1D else if low == 3 then 0xF9
        else if low == 4 then 0x5A else
    if low == 5 then 0xCA else if low == 6 then 0x57 else if low == 7 then 0xA9 else if low == 8 then 0x5E
        else if low == 9 then 0xEF else
    if low == 10 then 0x6B else if low == 11 then 0xB6 else if low == 12 then 0x2F else if low == 13 then 0x83
        else if low == 14 then 0x65 else
    0x8A
  }

  function DecryptionRow4(low: bv8): bv8 {
    if low == 0 then 0x13 else if low == 1 then 0xF5 else if low == 2 then 0x3C else if low == 3 then 0xDC
        else if low == 4 then 0x37 else
    if low == 5 then 0xD3 else if low == 6 then 0x0A else if low == 7 then 0xF4 else if low == 8 then 0x77
        else if low == 9 then 0xF3 else
    if low == 10 then 0x20 else if low == 11 then 0xE8 else if low == 12 then 0x73 else if low == 13 then 0xDB
        else if low == 14 then 0x7B else
    0xBB
  }

  function DecryptionRow5(low: bv8): bv8 {
    if low == 0 then 0x0B else if low == 1 then 0xFA else if low == 2 then 0x64 else if low == 3 then 0x8F
        else if low == 4 then 0x08 else
    if low == 5 then 0xA3 else if low == 6 then 0x7D else if low == 7 then 0xEB else if low == 8 then 0x5C
        else if low == 9 then 0x9C else
    if low == 10 then 0x3E else if low == 11 then 0x8C else if low == 12 then 0x30 else if low == 13 then 0xB0
        else if low == 14 then 0x7F else
    0xBE
  }

  function DecryptionRow6(low: bv8): bv8 {
    if low == 0 then 0x2A else if low == 1 then 0xD0 else if low == 2 then 0x68 else if low == 3 then 0xA2
        else if low == 4 then 0x22 else
    if low == 5 then 0xF7 else if low == 6 then 0x1C else if low == 7 then 0xC2 else if low == 8 then 0x17
        else if low == 9 then 0xCD else
    if low == 10 then 0x78 else if low == 11 then 0xC7 else if low == 12 then 0x21 else if low == 13 then 0x9E
        else if low == 14 then 0x70 else
    0x99
  }

  function DecryptionRow7(low: bv8): bv8 {
    if low == 0 then 0x1A else if low == 1 then 0xF8 else if low == 2 then 0x58 else if low == 3 then 0xEA
        else if low == 4 then 0x36 else
    if low == 5 then 0xB1 else if low == 6 then 0x69 else if low == 7 then 0xC9 else if low == 8 then 0x04
        else if low == 9 then 0xEE else
    if low == 10 then 0x3B else if low == 11 then 0xD6 else if low == 12 then 0x34 else if low == 13 then 0xFE
        else if low == 14 then 0x55 else
    0xE7
  }

  function DecryptionRow8(low: bv8): bv8 {
    if low == 0 then 0x1B else if low == 1 then 0xA6 else if low == 2 then 0x4A else if low == 3 then 0x9A
        else if low == 4 then 0x54 else
    if low == 5 then 0xE6 else if low == 6 then 0x51 else if low == 7 then 0xA0 else if low == 8 then 0x4E
        else if low == 9 then 0xCF else
    if low == 10 then 0x32 else if low == 11 then 0x88 else if low == 12 then 0x48 else if low == 13 then 0xA4
        else if low == 14 then 0x33 else
    0xA5
  }

  function DecryptionRow9(low: bv8): bv8 {
    if low == 0 then 0x5B else if low == 1 then 0xB9 else if low == 2 then 0x62 else if low == 3 then 0xD4
        else if low == 4 then 0x6F else
    if low == 5 then 0x98 else if low == 6 then 0x6C else if low == 7 then 0xE1 else if low == 8 then 0x53
        else if low == 9 then 0xCB else
    if low == 10 then 0x46 else if low == 11 then 0xDD else if low == 12 then 0x01 else if low == 13 then 0xE5
        else if low == 14 then 0x7A else
    0x86
  }

  function DecryptionRowA(low: bv8): bv8 {
    if low == 0 then 0x75 else if low == 1 then 0xDF else if low == 2 then 0x31 else if low == 3 then 0xD2
        else if low == 4 then 0x02 else
    if low == 5 then 0x97 else if low == 6 then 0x66 else if low == 7 then 0xE4 else if low == 8 then 0x38
        else if low == 9 then 0xEC else
    if low == 10 then 0x12 else if low == 11 then 0xB7 else if low == 12 then 0x00 else if low == 13 then 0x93
        else if low == 14 then 0x15 else
    0x8B
  }

  function DecryptionRowB(low: bv8): bv8 {
    if low == 0 then 0x6A else if low == 1 then 0xC5 else if low == 2 then 0x71 else if low == 3 then 0x92
        else if low == 4 then 0x45 else
    if low == 5 then 0xA1 else if low == 6 then 0x59 else if low == 7 then 0xF0 else if low == 8 then 0x06
        else if low == 9 then 0xA8 else
    if low == 10 then 0x5D else if low == 11 then 0x82 else if low == 12 then 0x2C else if low == 13 then 0xC4
        else if low == 14 then 0x43 else
    0xCC
  }

  function DecryptionRowC(low: bv8): bv8 {
    if low == 0 then 0x2D else if low == 1 then 0xD5 else if low == 2 then 0x35 else if low == 3 then 0xD7
        else if low == 4 then 0x3D else
    if low == 5 then 0xB2 else if low == 6 then 0x74 else if low == 7 then 0xB3 else if low == 8 then 0x09
        else if low == 9 then 0xC6 else
    if low == 10 then 0x7C else if low == 11 then 0xBF else if low == 12 then 0x2E else if low == 13 then 0xB8
        else if low == 14 then 0x28 else
    0x9F
  }

  function DecryptionRowD(low: bv8): bv8 {
    if low == 0 then 0x41 else if low == 1 then 0xBA else if low == 2 then 0x10 else if low == 3 then 0xAF
        else if low == 4 then 0x0C else
    if low == 5 then 0xFC else if low == 6 then 0x23 else if low == 7 then 0xD9 else if low == 8 then 0x49
        else if low == 9 then 0xF6 else
    if low == 10 then 0x7E else if low == 11 then 0x8D else if low == 12 then 0x18 else if low == 13 then 0x96
        else if low == 14 then 0x56 else
    0xD1
  }

  function DecryptionRowE(low: bv8): bv8 {
    if low == 0 then 0x2B else if low == 1 then 0xAD else if low == 2 then 0x4B else if low == 3 then 0xC1
        else if low == 4 then 0x4F else
    if low == 5 then 0xC8 else if low == 6 then 0x3A else if low == 7 then 0xF1 else if low == 8 then 0x1E
        else if low == 9 then 0xBD else
    if low == 10 then 0x4C else if low == 11 then 0xDA else if low == 12 then 0x50 else if low == 13 then 0xA7
        else if low == 14 then 0x52 else
    0xE9
  }

  function DecryptionRowF(low: bv8): bv8 {
    if low == 0 then 0x76 else if low == 1 then 0xD8 else if low == 2 then 0x19 else if low == 3 then 0x91
        else if low == 4 then 0x72 else
    if low == 5 then 0x85 else if low == 6 then 0x3F else if low == 7 then 0x81 else if low == 8 then 0x61
        else if low == 9 then 0xAA else
    if low == 10 then 0x05 else if low == 11 then 0x89 else if low == 12 then 0x0E else if low == 13 then 0xB5
        else if low == 14 then 0x24 else
    0xE0
  }

  /** `romDecryptionTable` */
  function Decrypted(index: bv8): bv8 {
    var high, low := index >> 4, index & 0xF;
    if high == 0 then DecryptionRow0(low) else if high == 1 then DecryptionRow1(low)
        else if high == 2 then DecryptionRow2(low) else if high == 3 then DecryptionRow3(low) else
    if high == 4 then DecryptionRow4(low) else if high == 5 then DecryptionRow5(low)
        else if high == 6 then DecryptionRow6(low) else if high == 7 then DecryptionRow7(low) else
    if high == 8 then DecryptionRow8(low) else if high == 9 then DecryptionRow9(low)
        else if high == 10 then DecryptionRowA(low) else if high == 11 then DecryptionRowB(low) else
    if high == 12 then DecryptionRowC(low) else if high == 13 then DecryptionRowD(low)
        else if high == 14 then DecryptionRowE(low) else DecryptionRowF(low)
  }

  lemma Row0Inverse(low: bv8)
    requires low < 16
    ensures Decrypted(EncryptionRow0(low)) == low ^ 0x00
  {
    if low < 4 {
    } else if low < 8 {
    } else if low < 12 {
    }
  }

  lemma Row1Inverse(low: bv8)
    requires low < 16
    ensures Decrypted(EncryptionRow1(low)) == low ^ 0x10
  {
    if low < 4 {
    } else if low < 8 {
    } else if low < 12 {
    }
  }

  lemma Row2Inverse(low: bv8)
    requires low < 16
    ensures Decrypted(EncryptionRow2(low)) == low ^ 0x20
  {
    if low < 4 {
    } else if low < 8 {
    } else if low < 12 {
    }
  }

  lemma Row3Inverse(low: bv8)
    requires low < 16
    ensures Decrypted(EncryptionRow3(low)) == low ^ 0x30
  {
    if low < 4 {
    } else if low < 8 {
    } else if low < 12 {
    }
  }

  lemma Row4Inverse(low: bv8)
    requires low < 16
    ensures Decrypted(EncryptionRow4(low)) == low ^ 0x40
  {
    if low < 4 {
    } else if low < 8 {
    } else if low < 12 {
    }
  }

  lemma Row5Inverse(low: bv8)
    requires low < 16
    ensures Decrypted(EncryptionRow5(low)) == low ^ 0x50
  {
    if low < 4 {
    } else if low < 8 {
    } else if low < 12 {
    }
  }

  lemma Row6Inverse(low: bv8)
    requires low < 16
    ensures Decrypted(EncryptionRow6(low)) == low ^ 0x60
  {
    if low < 4 {
    } else if low < 8 {
    } else if low < 12 {
    }
  }

  lemma Row7Inverse(low: bv8)
    requires low < 16
    ensures Decrypted(EncryptionRow7(low)) == low ^ 0x70
  {
    if low < 4 {
    } else if low < 8 {
    } else if low < 12 {
    }
  }

  lemma Row8Inverse(low: bv8)
    requires low < 16
    ensures Decrypted(EncryptionRow8(low)) == low ^ 0x80
  {
    if low < 4 {
    } else if low < 8 {
    } else if low < 12 {
    }
  }

  lemma Row9Inverse(low: bv8)
    requires low < 16
    ensures Decrypted(EncryptionRow9(low)) == low ^ 0x90
  {
    if low < 4 {
    } else if low < 8 {
    } else if low < 12 {
    }
  }

  lemma RowAInverse(low: bv8)
    requires low < 16
    ensures Decrypted(EncryptionRowA(low)) == low ^ 0xA0
  {
    if low < 4 {
    } else if low < 8 {
    } else if low < 12 {
    }
  }

  lemma RowBInverse(low: bv8)
    requires low < 16
    ensures Decrypted(EncryptionRowB(low)) == low ^ 0xB0
  {
    if low < 4 {
    } else if low < 8 {
    } else if low < 12 {
    }
  }

  lemma RowCInverse(low: bv8)
    requires low < 16
    ensures Decrypted(EncryptionRowC(low)) == low ^ 0xC0
  {
    if low < 4 {
    } else if low < 8 {
    } else if low < 12 {
    }
  }

  lemma RowDInverse(low: bv8)
    requires low < 16
    ensures Decrypted(EncryptionRowD(low)) == low ^ 0xD0
  {
    if low < 4 {
    } else if low < 8 {
    } else if low < 12 {
    }
  }

  lemma RowEInverse(low: bv8)
    requires low < 16
    ensures Decrypted(EncryptionRowE(low)) == low ^ 0xE0
  {
    if low < 4 {
    } else if low < 8 {
    } else if low < 12 {
    }
  }

  lemma RowFInverse(low: bv8)
    requires low < 16
    ensures Decrypted(EncryptionRowF(low)) == low ^ 0xF0
  {
    if low < 4 {
    } else if low < 8 {
    } else if low < 12 {
    }
  }

  lemma Nibbles(b: bv8, high: bv8)
    requires b >> 4 == high
    ensures b == (b & 0xF) ^ (high << 4)
  {
  }

  lemma NibbleLess(b: bv8)
    ensures b & 0xF < 16
  {
  }

  /** The tables are inverse. */
  lemma TablesInverse(b: bv8)
    ensures Decrypted(Encrypted(b)) == b
  {
    var low := b & 0xF;
    NibbleLess(b);
    Nibbles(b, b >> 4);
    if b >> 4 == 0 {
      Row0Inverse(low);
    } else if b >> 4 == 1 {
      Row1Inverse(low);
    } else if b >> 4 == 2 {
      Row2Inverse(low);
    } else if b >> 4 == 3 {
      Row3Inverse(low);
    } else if b >> 4 == 4 {
      Row4Inverse(low);
    } else if b >> 4 == 5 {
      Row5Inverse(low);
    } else if b >> 4 == 6 {
      Row6Inverse(low);
    } else if b >> 4 == 7 {
      Row7Inverse(low);
    } else if b >> 4 == 8 {
      Row8Inverse(low);
    } else if b >> 4 == 9 {
      Row9Inverse(low);
    } else if b >> 4 == 10 {
      RowAInverse(low);
    } else if b >> 4 == 11 {
      RowBInverse(low);
    } else if b >> 4 == 12 {
      RowCInverse(low);
    } else if b >> 4 == 13 {
      RowDInverse(low);
    } else if b >> 4 == 14 {
      RowEInverse(low);
    } else {
      RowFInverse(low);
    }
  }

  // ---- The image

  const CHIP_TOTAL_MEMORY := 0x8000
  const PAGE_BYTES := 0x100

  /** A table and its inverse. */
  datatype Tables = Tables(encrypted: bv8 -> bv8, decrypted: bv8 -> bv8)

  const TABLES := Tables(Encrypted, Decrypted)

  ghost predicate Inverse(t: Tables) {
    forall b :: t.decrypted(t.encrypted(b)) == b
  }

  lemma TablesAreInverse()
    ensures Inverse(TABLES)
  {
    forall b ensures TABLES.decrypted(TABLES.encrypted(b)) == b {
      TablesInverse(b);
    }
  }

  /** The first byte tells an unencrypted file. An empty one reads as a zero byte. */
  predicate IsPlain(file: seq<bv8>) {
    file != [] && (file[0] == 0x0C || file[0] == 0xFD)
  }

  /** The other index of a pair. */
  function Partner(i: nat): nat {
    if i % 2 == 1 then i - 1 else i + 1
  }

  /**
   Byte `i` of the image with the bytes of each pair swapped; the last byte of an odd image has `blank` for a partner.
   */
  function Swapped(rom: seq<bv8>, i: nat, blank: bv8): bv8
    requires i < |rom|
  {
    if i % 2 == 0 && i == |rom| - 1 then blank else rom[Partner(i)]
  }

  function Blanks(n: nat): seq<bv8> {
    seq(n, _ => 0xFF)
  }

  /** One byte more if the length is odd and there is room. */
  function Evened(rom: seq<bv8>, blank: bv8): seq<bv8> {
    if |rom| % 2 != 0 && |rom| < CHIP_TOTAL_MEMORY then rom + [blank] else rom
  }

  function EncryptedImage(t: Tables, rom: seq<bv8>): seq<bv8> {
    seq(|rom|, i requires 0 <= i < |rom| => t.encrypted(Swapped(rom, i, 0xFF)))
  }

  /** `romBuffer` before its size is checked. */
  function Prepared(t: Tables, file: seq<bv8>): seq<bv8> {
    var rom := if IsPlain(file) then EncryptedImage(t, Evened(file, 0xFF)) else file;
    Evened(rom, t.encrypted(0xFF))
  }

  predicate Accepted(rom: seq<bv8>) {
    |rom| <= CHIP_TOTAL_MEMORY
  }

  /** The image is accepted exactly when the file fits the chip. */
  lemma AcceptedExactlyWhenFits(t: Tables, file: seq<bv8>)
    ensures Accepted(Prepared(t, file)) <==> |file| <= CHIP_TOTAL_MEMORY
  {
  }

  function Pages(rom: seq<bv8>): nat {
    |rom| / 2 / 0x80 + if |rom| / 2 % 0x80 != 0 then 1 else 0
  }

  /** The byte sent at `position` of the page stream. */
  function Sent(t: Tables, rom: seq<bv8>, position: nat): bv8 {
    if position < |rom| then Swapped(rom, position, t.encrypted(0xFF)) else t.encrypted(0xFF)
  }

  function Stream(t: Tables, rom: seq<bv8>): seq<bv8> {
    seq(Pages(rom) * PAGE_BYTES, (position: nat) => Sent(t, rom, position))
  }

  /** The byte of `decryptedRom` at index `i`. */
  function DecryptedByte(t: Tables, rom: seq<bv8>, i: nat): bv8 {
    if i < |rom| then (if i % 2 == 0 && i == |rom| - 1 then 0xFF else t.decrypted(rom[Partner(i)])) else 0xFF
  }

  function DecryptedImage(t: Tables, rom: seq<bv8>): seq<bv8> {
    seq(CHIP_TOTAL_MEMORY, (i: nat) => DecryptedByte(t, rom, i))
  }

  function Decryption(t: Tables, data: seq<bv8>): seq<bv8> {
    seq(|data|, i requires 0 <= i < |data| => t.decrypted(data[i]))
  }

  lemma PagesCover(rom: seq<bv8>)
    requires Accepted(rom) && |rom| % 2 == 0
    ensures |rom| <= Pages(rom) * PAGE_BYTES <= CHIP_TOTAL_MEMORY
  {
  }

  lemma PreparedIsEven(t: Tables, file: seq<bv8>)
    requires Accepted(Prepared(t, file))
    ensures |Prepared(t, file)| % 2 == 0
  {
  }

  /** What the printer decrypts from the pages, followed by blank memory, is the image whose CRC is compared. */
  lemma StreamDecrypts(t: Tables, file: seq<bv8>)
    requires Inverse(t) && |file| <= CHIP_TOTAL_MEMORY
    ensures var rom := Prepared(t, file);
      && |Stream(t, rom)| <= CHIP_TOTAL_MEMORY
      && Decryption(t, Stream(t, rom)) + Blanks(CHIP_TOTAL_MEMORY - |Stream(t, rom)|) == DecryptedImage(t, rom)
  {
    var rom := Prepared(t, file);
    AcceptedExactlyWhenFits(t, file);
    PreparedIsEven(t, file);
    PagesCover(rom);
    StreamDecryptsRom(t, rom);
  }

  lemma StreamDecryptsRom(t: Tables, rom: seq<bv8>)
    requires Inverse(t) && |rom| % 2 == 0 && |rom| <= Pages(rom) * PAGE_BYTES <= CHIP_TOTAL_MEMORY
    ensures Decryption(t, Stream(t, rom)) + Blanks(CHIP_TOTAL_MEMORY - |Stream(t, rom)|) == DecryptedImage(t, rom)
  {
    var left := Decryption(t, Stream(t, rom)) + Blanks(CHIP_TOTAL_MEMORY - |Stream(t, rom)|);
    forall i | 0 <= i < CHIP_TOTAL_MEMORY ensures left[i] == DecryptedByte(t, rom, i) {
      if i < |Stream(t, rom)| {
        assert left[i] == t.decrypted(Sent(t, rom, i));
      }
    }
  }

  /** For an unencrypted file that image is the file followed by blank memory. */
  lemma PlainFileIsRecovered(t: Tables, file: seq<bv8>)
    requires Inverse(t) && IsPlain(file) && |file| <= CHIP_TOTAL_MEMORY
    ensures DecryptedImage(t, Prepared(t, file)) == file + Blanks(CHIP_TOTAL_MEMORY - |file|)
  {
    var even := Evened(file, 0xFF);
    var rom := Prepared(t, file);
    assert rom == EncryptedImage(t, even);
    var right := file + Blanks(CHIP_TOTAL_MEMORY - |file|);
    forall i | 0 <= i < CHIP_TOTAL_MEMORY ensures DecryptedByte(t, rom, i) == right[i] {
      if i < |rom| {
        assert Partner(Partner(i)) == i;
        assert rom[Partner(i)] == t.encrypted(Swapped(even, Partner(i), 0xFF));
        assert Swapped(even, Partner(i), 0xFF) == even[i];
      }
    }
  }

  /** Both with the tables of the program. */
  lemma TransferredImage(file: seq<bv8>)
    requires |file| <= CHIP_TOTAL_MEMORY
    ensures var sent := Stream(TABLES, Prepared(TABLES, file));
      && |sent| <= CHIP_TOTAL_MEMORY
      && Decryption(TABLES, sent) + Blanks(CHIP_TOTAL_MEMORY - |sent|) == DecryptedImage(TABLES, Prepared(TABLES, file))
    ensures IsPlain(file) ==>
            DecryptedImage(TABLES, Prepared(TABLES, file)) == file + Blanks(CHIP_TOTAL_MEMORY - |file|)
  {
    TablesAreInverse();
    StreamDecrypts(TABLES, file);
    if IsPlain(file) {
      PlainFileIsRecovered(TABLES, file);
    }
  }

  // ---- The loops of installFirmware

  const UINT16_MAX := 0xFFFF

  /** The encryption loop; its 16-bit index reaches the end of images of up to 65535 bytes only. */
  method EncryptRom(t: Tables, rom: seq<bv8>) returns (encrypted: seq<bv8>)
    requires |rom| <= UINT16_MAX
    ensures encrypted == EncryptedImage(t, rom)
  {
    encrypted := [];
    for i := 0 to |rom|
      invariant encrypted == EncryptedImage(t, rom)[..i]
    {
      var value: bv8;
      if i % 2 != 0 || i != |rom| - 1 {
        value := t.encrypted(rom[i + if i % 2 != 0 then -1 else 1]);
      } else {
        value := t.encrypted(0xFF);
      }
      assert value == t.encrypted(Swapped(rom, i, 0xFF));
      encrypted := encrypted + [value];
    }
  }

  method PrepareRom(t: Tables, file: seq<bv8>) returns (rom: seq<bv8>)
    requires IsPlain(file) ==> |file| <= UINT16_MAX
    ensures rom == Prepared(t, file)
  {
    rom := file;
    if |file| > 0 && (rom[0] == 0x0C || rom[0] == 0xFD) {
      if |rom| % 2 != 0 && |rom| < CHIP_TOTAL_MEMORY {
        rom := rom + [0xFF];
      }
      rom := EncryptRom(t, rom);
    }
    if |rom| % 2 != 0 && |rom| < CHIP_TOTAL_MEMORY {
      rom := rom + [t.encrypted(0xFF)];
    }
  }

  /** The values of one page. */
  method SendPage(t: Tables, rom: seq<bv8>, page: nat, sent: seq<bv8>) returns (all: seq<bv8>)
    requires sent == seq(page * PAGE_BYTES, (position: nat) => Sent(t, rom, position))
    ensures all == seq((page + 1) * PAGE_BYTES, (position: nat) => Sent(t, rom, position))
  {
    all := sent;
    for j := 0 to PAGE_BYTES
      invariant all == seq(page * PAGE_BYTES + j, (position: nat) => Sent(t, rom, position))
    {
      var position: nat := j + 0x80 * page * 2;
      var value: bv8;
      if position < |rom| {
        if position % 2 == 0 && position == |rom| - 1 {
          value := t.encrypted(0xFF);
        } else {
          value := rom[position + if position % 2 != 0 then -1 else 1];
        }
      } else {
        value := t.encrypted(0xFF);
      }
      assert value == Sent(t, rom, position);
      all := all + [value];
    }
  }

  method SendPages(t: Tables, rom: seq<bv8>) returns (sent: seq<bv8>)
    ensures sent == Stream(t, rom)
  {
    var pagesToWrite := |rom| / 2 / 0x80;
    if |rom| / 2 % 0x80 != 0 {
      pagesToWrite := pagesToWrite + 1;
    }
    sent := [];
    for i := 0 to pagesToWrite
      invariant sent == seq(i * PAGE_BYTES, (position: nat) => Sent(t, rom, position))
    {
      sent := SendPage(t, rom, i, sent);
    }
  }

  method DecryptRom(t: Tables, rom: seq<bv8>) returns (decryptedRom: array<bv8>)
    ensures fresh(decryptedRom) && decryptedRom[..] == DecryptedImage(t, rom)
  {
    decryptedRom := new bv8[CHIP_TOTAL_MEMORY];
    for i := 0 to CHIP_TOTAL_MEMORY
      invariant forall k :: 0 <= k < i ==> decryptedRom[k] == DecryptedByte(t, rom, k)
    {
      if i < |rom| {
        if i % 2 == 0 && i == |rom| - 1 {
          decryptedRom[i] := 0xFF;
        } else {
          decryptedRom[i] := t.decrypted(rom[i + if i % 2 != 0 then -1 else 1]);
        }
      } else {
        decryptedRom[i] := 0xFF;
      }
    }
  }

  /**
   The pages sent, and the image whose CRC is compared: what the memory of a printer holds that decrypts the pages.
   */
  method Transfer(t: Tables, file: seq<bv8>) returns (accepted: bool, sent: seq<bv8>, decryptedRom: array<bv8>)
    requires Inverse(t) && (IsPlain(file) ==> |file| <= UINT16_MAX)
    ensures accepted <==> |file| <= CHIP_TOTAL_MEMORY
    ensures |sent| <= CHIP_TOTAL_MEMORY
    ensures accepted ==> decryptedRom[..] == Decryption(t, sent) + Blanks(CHIP_TOTAL_MEMORY - |sent|)
    ensures accepted && IsPlain(file) ==> decryptedRom[..] == file + Blanks(CHIP_TOTAL_MEMORY - |file|)
  {
    var rom := PrepareRom(t, file);
    AcceptedExactlyWhenFits(t, file);
    accepted, sent, decryptedRom := true, [], new bv8[0];
    if |rom| > CHIP_TOTAL_MEMORY {
      accepted := false;
      return;
    }
    sent := SendPages(t, rom);
    decryptedRom := DecryptRom(t, rom);
    StreamDecrypts(t, file);
    if IsPlain(file) {
      PlainFileIsRecovered(t, file);
    }
  }

  method RomCrc(decryptedRom: array<bv8>) returns (romCrc: bv32)
    requires decryptedRom.Length == CHIP_TOTAL_MEMORY
    ensures romCrc == Crc.BitSerialCrc(decryptedRom[..])
  {
    romCrc := Crc.Crc32(0, decryptedRom, CHIP_TOTAL_MEMORY);
    assert decryptedRom[0..CHIP_TOTAL_MEMORY] == decryptedRom[..];
  }
}
