/** What the scramble of the keys 0 and 1 is, for one iteration, round by round; and that resuming a run
    of these keys stopped in the first does not give their sum. */
module ScrambleAnswer {
  import opened KeccakFips
  import opened Keccakf
  import Scramble

  // The lanes of each key after each number of rounds.

  const KEY0_0: State := State(
    Plane(Word(0x6170727463692e6b), Word(0x68406570632e6d6f), Word(0x3335203539383937),
          Word(0x3436333333383732), Word(0x3931313736203339)),
    Plane(Word(0x350a323839303437), Word(0x3730313834363020), Word(0x2039363838323330),
          Word(0x3131303737362039), Word(0x3638313533203832)),
    Plane(Word(0x3930383334343036), Word(0x3332373120323335), Word(0x2020340a31383131),
          Word(0x7463692e6b656469), Word(0x70632e6d6f310a31)),
    Plane(Word(0x3539383937323338), Word(0x3333383732203930), Word(0x3736203339393937),
          Word(0x3839303437343920), Word(0x3834363020323636)),
    Plane(Word(0x3838323330383435), Word(0x37373620390a2032), Word(0x3533203832333236),
          Word(0x3334343036353935), Word(0x3120323335393530)))

  const KEY0_1: State := State(
    Plane(Word(0xa787ae61c05b46ab), Word(0x8fc8d15299a16bb2), Word(0x47249d83e62b86f8),
          Word(0xdd9c4f810dad3d88), Word(0xfe6df375570672e7)),
    Plane(Word(0x3f61442b5ed817da), Word(0xbf99da615931cc59), Word(0xef26941d8a625784),
          Word(0x84c42633cd4945ac), Word(0x952c4a61527c3c55)),
    Plane(Word(0x00aeb63abc2104dc), Word(0x21c166baaba42a2f), Word(0xf55e5aa32cb31c16),
          Word(0x1f0cd6ac0e0f8f46), Word(0x214f9c8f626ed208)),
    Plane(Word(0x90545090846ea59b), Word(0xa02d03bb7f8c2d9a), Word(0x9e6b51fcb55bd8c8),
          Word(0xcc90cc62d45cd103), Word(0x1a476e6bdf73710d)),
    Plane(Word(0xab69e005e8796ac9), Word(0x2a585b21e0783e0a), Word(0x0e91c4754636f065),
          Word(0x3aff8d66f19b1960), Word(0xc4ae131689f5a1ee)))

  const KEY0_2: State := State(
    Plane(Word(0x428a9ca47c489ea8), Word(0x99d20dfb91dfc00c), Word(0xd3d32a7e449c28f9),
          Word(0x63ca9df59eed2d57), Word(0x3461bfb6a972cd9f)),
    Plane(Word(0x99ddc047c29ec3ae), Word(0x189313b3e6f27544), Word(0x0c3c07736102a161),
          Word(0x4eccd7072f4ceb4b), Word(0x1ca2621a44b5fe46)),
    Plane(Word(0xef4950b921247c87), Word(0x3b57cce32ea4c669), Word(0xe1ad39e42d72c950),
          Word(0xb3a89bbc3469a768), Word(0x4b06cfea766da153)),
    Plane(Word(0xa90283c0f16dfee2), Word(0x64d77348c0c5ec30), Word(0xf48e4e12fbcd7467),
          Word(0xe56d43e15c0b747d), Word(0x506ae7d31aa3286c)),
    Plane(Word(0xffe1bc6a3b7ddb29), Word(0x8732d22c958efd2c), Word(0x14ec53facad4b2ca),
          Word(0x5d87c36ea2e0e2bb), Word(0x4990a8b7a30b99fc)))

  const KEY0_3: State := State(
    Plane(Word(0x0373259c5387bbf2), Word(0xb3586c32e3b4bc4f), Word(0x1901cf0faf6b463e),
          Word(0x1cd61d56c3d1b73e), Word(0x9329c499b996ae8c)),
    Plane(Word(0x3a37ded8a5894cd3), Word(0xcba962651c4cf105), Word(0x54a7901a711cfc1b),
          Word(0x929739cd4ac61cd0), Word(0x21baf156f40c96f6)),
    Plane(Word(0x2cdc685b7d9d714b), Word(0x55b50da6e50f0ca4), Word(0xf99b31eac2137c11),
          Word(0x5057aad94a5e4ba9), Word(0x4a7984487166d6e4)),
    Plane(Word(0x91f8a9977986fc4c), Word(0xd589cc6148c3ffd7), Word(0x8be41d72b47ba297),
          Word(0xdea7a021b8bf9cb6), Word(0xea759d102b9e1291)),
    Plane(Word(0x71a70c48b3d2c82a), Word(0x1f224d33832b4691), Word(0x6523f1ee1471e3f3),
          Word(0xc7b3344597f2d0dd), Word(0xea2f8e48ce36c020)))

  const KEY0_4: State := State(
    Plane(Word(0xbe398606a8d4f284), Word(0xb5ca5395c600a3d1), Word(0x2eae24c084397678),
          Word(0xffb2cd2c5fc6a188), Word(0xbeb9b0d6d70771f9)),
    Plane(Word(0x3c47328b08f1fd28), Word(0x4f68b8d2a478dd7b), Word(0x9c0e76583795c1e8),
          Word(0x842f06b4679cdbb3), Word(0x02918094e7acea20)),
    Plane(Word(0xee54bc0af83c8197), Word(0xa26b3b1a129f1e8b), Word(0x0c8831c94df683fa),
          Word(0xb97e2a4fb5d6a403), Word(0xbe4a23f017d2212a)),
    Plane(Word(0xee666e15cfbd0dcb), Word(0x2f28425654b4c50c), Word(0x1edea7314e48247e),
          Word(0xf95e9db2c5577897), Word(0xd2643833899ba42b)),
    Plane(Word(0xcc39f6f81bc68ebd), Word(0x67fc83330ca60871), Word(0x528ef021ba3a17ff),
          Word(0x5a5867652f040f07), Word(0x5fc5fcd5e8e7e8b5)))

  const KEY0_5: State := State(
    Plane(Word(0x53c1d382978ed2cb), Word(0xa5fe565ed043b3e4), Word(0xf36fb797fab6e5c7),
          Word(0xeb683c92ddf88261), Word(0x5dfe29a356e04936)),
    Plane(Word(0x54fc14a9efb4d77c), Word(0x64891bf51069687b), Word(0x2d63633576396e3c),
          Word(0xd56694bd375719d0), Word(0xd02ab1b73ba535bd)),
    Plane(Word(0x36bcf470fc4540f6), Word(0xd4545c54b7d9e11d), Word(0x4917fa9e6f098561),
          Word(0x5a8ca0acb45359b9), Word(0xcf3038a48a2b3601)),
    Plane(Word(0x174a2634de0db85a), Word(0xb1f50b5872e55875), Word(0x8cbce95634f04543),
          Word(0xc84494833f2dfe9c), Word(0xd702be34ad496545)),
    Plane(Word(0x1b1744df98d0e239), Word(0xc2b6d8cc33c2be98), Word(0x746ccf4de24c1abb),
          Word(0xad583c1337baa3a0), Word(0x7545476e7470362f)))

  const KEY0_6: State := State(
    Plane(Word(0x7d812fbc063677d4), Word(0x515d1e7db188fb8e), Word(0x423a19a633d59d70),
          Word(0xc0aed11b87cce900), Word(0x515ff997d4574bd2)),
    Plane(Word(0xcbe78c48155b5676), Word(0x045ca8bbccda71cd), Word(0x54f54be57bd62a51),
          Word(0x65f2ac7bc902db26), Word(0xa63e290147895f9e)),
    Plane(Word(0x3f2baf04c0621c20), Word(0x0fbc1e334ca73b5b), Word(0xfcf9a6f73df0ca64),
          Word(0xacdd453e97e635ad), Word(0x671f7c82029ddf04)),
    Plane(Word(0xb47ef71a052da5d6), Word(0x412e33264b6c897b), Word(0x7a74a8fa1d2fe6d9),
          Word(0x39a1fd39c2a2b5e6), Word(0x4382d5a268be36c8)),
    Plane(Word(0x27ce853e902dcbf0), Word(0xdd8db5b3f7dd71ae), Word(0x838b9c52a71de7cc),
          Word(0xc23e4142c1db511b), Word(0x1bc3144b4b422df5)))

  const KEY0_7: State := State(
    Plane(Word(0x3b803ae4fe03349b), Word(0x3c69929a0ed46389), Word(0xba1aa2b484465521),
          Word(0xfb4f1b0d8fb642ee), Word(0x9f5d06505b16b64c)),
    Plane(Word(0x13d3c2d9f4997efd), Word(0x2cca1269a3171da9), Word(0x4974e18460ecf372),
          Word(0x668dcf989d99e2fe), Word(0x9c350b6f39d94c1d)),
    Plane(Word(0xda074162f01c21b4), Word(0xf11f7dbc5d497e5d), Word(0x227a71922c57dd8f),
          Word(0x6ecb2e3e2170d684), Word(0xf590d2fa2c18d37f)),
    Plane(Word(0xdd12e22b64b5f480), Word(0x52a9d9a8eaf7576b), Word(0x6b82734e2b423d4f),
          Word(0x9378d2417468342b), Word(0xa28090da3f2166c6)),
    Plane(Word(0x390ad2e3730e853c), Word(0xda73427b4c3d9653), Word(0xeb4c91487dc1a50b),
          Word(0x2dce3363b900c94e), Word(0x457c0d60357230a8)))

  const KEY0_8: State := State(
    Plane(Word(0xf818b3a31606c14a), Word(0x7f2b58d715d7666d), Word(0xc048c289d081a435),
          Word(0xbb645265327a9511), Word(0x8576cc5fc2487f3a)),
    Plane(Word(0xbbe225dfa849f635), Word(0x0d91558d2d2fd536), Word(0xcc567138201febe1),
          Word(0x89c2b90d1e2ed7e6), Word(0x873b4018e9fbcf75)),
    Plane(Word(0x1361798cb61b7f3f), Word(0xfdbc72faf408bc6d), Word(0x986e0db3bb3832fc),
          Word(0xa7b96c9b70f9ff65), Word(0xbe9e6e5fe31beb49)),
    Plane(Word(0xa3ef504929fbdc65), Word(0xc9e873f9d0c4992d), Word(0xdf4b96732e863f03),
          Word(0xb0c000bef3a5c4ee), Word(0x1e5e3f5339aa7754)),
    Plane(Word(0x9ab4bcccd1b268e1), Word(0xb30a3bf845d7a6e6), Word(0xb49f03c818480a20),
          Word(0x601280753cd099d9), Word(0xdf23a99757b03b2b)))

  const KEY0_9: State := State(
    Plane(Word(0x3a7eae3d02d1ab43), Word(0x2a5e79b5d24c236e), Word(0xfe1b573009a20e68),
          Word(0x13b6d51d4184a298), Word(0xab9158945889926d)),
    Plane(Word(0x70257f2e9181818e), Word(0x0a3d6ae561068565), Word(0xe97b3496137849de),
          Word(0x3e9c83d087c75b45), Word(0xf5c4a7c268c34912)),
    Plane(Word(0xe7c7d8801634172c), Word(0x8b2c3a5fd36eed2c), Word(0xbac0f82309c6811f),
          Word(0x513a88ea4f5e7dbd), Word(0x955b310ff8ceb3ca)),
    Plane(Word(0x658eafb9bf99c7c8), Word(0xd4980372b85be409), Word(0xf0bfb5fb074675c9),
          Word(0x9258b95aefcb529a), Word(0xb234ea00354efcec)),
    Plane(Word(0xdfb49cd602941360), Word(0x8cc2515694973969), Word(0xfc71038045dfc6cc),
          Word(0x36d1ce6951037b59), Word(0x964bbed4b86828cc)))

  const KEY0_10: State := State(
    Plane(Word(0x112568e5d8a33b81), Word(0x4df155dcb18ae506), Word(0xa268e15722cb4117),
          Word(0x14e7614f89bd99ac), Word(0xd0dc2acbb5e31cc1)),
    Plane(Word(0xddb1486de6cfa47f), Word(0xbae0ec736e726557), Word(0xf7ed679e72adb8af),
          Word(0x14f73a9dde4e78e1), Word(0xb58851426ce38079)),
    Plane(Word(0xf66029c8e2420afc), Word(0x3753a55c0663a7ef), Word(0x1d2a2f6e71356d9a),
          Word(0xdf7eec12da97dd05), Word(0xc1303f9a014a6ebd)),
    Plane(Word(0xc0b01b4ac2fee40a), Word(0x59311b455fa13750), Word(0x496c31f43637f14a),
          Word(0xcec8312abe04fd4c), Word(0xc1485cd3988ad823)),
    Plane(Word(0x2b492abc8fe8008e), Word(0xf1a9088532ae87ab), Word(0xc6263cb15326d8ff),
          Word(0xdda0ba5d6baed4df), Word(0xa6c041192fd66ec6)))

  const KEY0_11: State := State(
    Plane(Word(0x0b7d2e76dc955963), Word(0xf7bb665268c05378), Word(0xeebb176de6cdbbb2),
          Word(0xcf09a758fbc99f6c), Word(0xf7b2155a07443423)),
    Plane(Word(0xd17f28ffa44fa3d7), Word(0x4fbd659fa6f95101), Word(0x01837ab6216a00b7),
          Word(0xd69e127cc84ecba3), Word(0xae5e4c5dc075d481)),
    Plane(Word(0x266fca5f56515fe8), Word(0x9ed478fdf9416748), Word(0x248bd5cf2cae87b6),
          Word(0x567541e26441eeb5), Word(0x7c8a17dd0290e444)),
    Plane(Word(0xde2af773bdd303b8), Word(0x2f88e0dc7ad8b967), Word(0xdf59bc5f73949986),
          Word(0x25b6fbcf16da5fc5), Word(0x88999da14ff13ce6)),
    Plane(Word(0xf4ebb50399e9df60), Word(0x5abaa536a622d9a6), Word(0xc6ed138fba7f343f),
          Word(0xc31ec1a7d10922f8), Word(0xb6bda7c8ca4c340c)))

  const KEY0_12: State := State(
    Plane(Word(0x9fb96f5ec83d1fa5), Word(0x553983c1f4033e18), Word(0x286e5aebf3b2cf33),
          Word(0x8f43a42ad17574a4), Word(0xdd0a934f7452acbb)),
    Plane(Word(0xa19b3ba7e0b8e5bb), Word(0xf3e4910f4ccea248), Word(0xd7cf0ece0c4a516c),
          Word(0x395eeac3a8be66a2), Word(0x429756090278d7a8)),
    Plane(Word(0x8a3abc7d006d1cad), Word(0x37f40d7a30eaf280), Word(0xf19d0eca2f54ec5c),
          Word(0x806dc7f28b40b8dd), Word(0xc5907bc5d2b3c3a6)),
    Plane(Word(0x0e14944b6fbc6e15), Word(0x31f253b0d6de9795), Word(0x3b64cff9d0f07718),
          Word(0x0bfc5c1ee3f0e302), Word(0xdb4dde8b9531c229)),
    Plane(Word(0xd893ac328b9b19f1), Word(0x5c99a6377e29aa35), Word(0xd388151ee8e01f4b),
          Word(0xcd9b05dd5bfdee76), Word(0xa06812a7c17e4adc)))

  const KEY0_13: State := State(
    Plane(Word(0x0994d3b5fb6b414f), Word(0xb047a5dd9c4b9614), Word(0x5f439fe743884c84),
          Word(0x6f299515325d6783), Word(0x888a20d177e35143)),
    Plane(Word(0x51969147c2f43c17), Word(0x50e9344d3ab4f2ff), Word(0x05085da7a3587062),
          Word(0x624e23fdd073857e), Word(0xbbd5adc383a4e38c)),
    Plane(Word(0xf70a06dbc961bcd8), Word(0xcc3a5b2c45d57058), Word(0x4144e2340f49df55),
          Word(0xb1adac0fea6e1beb), Word(0x237dba9219d244da)),
    Plane(Word(0x462a115da3551f11), Word(0xdcee13a503ebd761), Word(0x0f3651d57f1db673),
          Word(0x832f729be09a8187), Word(0xbeac3bc28a7a2d70)),
    Plane(Word(0xc921d4e2059ed4c7), Word(0x399ec740e830d3b3), Word(0x9f2fc1b8d01d4902),
          Word(0x94f16dbd63e6c57d), Word(0xfed3f06844383c07)))

  const KEY0_14: State := State(
    Plane(Word(0x4ba43bbdcbffe661), Word(0x6e4a57664d5e9e9a), Word(0x288666a5c2ffb5be),
          Word(0x98dcf6ae383b12c9), Word(0x09b39c9b9151dd61)),
    Plane(Word(0x87428b43066a9e54), Word(0xaaea0264a8852c7e), Word(0xe4f6109b9b315f8b),
          Word(0x1fd4dc081a48731d), Word(0x70b43ea8f157a47d)),
    Plane(Word(0x081a28621da94ac7), Word(0x8b3711435086c6b3), Word(0xc51a61939a2c0b48),
          Word(0xb32f2fffbe85715a), Word(0xe0e8c9a12d9e9ef0)),
    Plane(Word(0xb065afc25216eb31), Word(0x2c1a2be986d4ddea), Word(0x0b526e6e590e3fea),
          Word(0xa207130ae5fdc15d), Word(0x77a54c0cd045c4d9)),
    Plane(Word(0x7271eecf705414db), Word(0x3da5d1be90ca228b), Word(0x7c3657f4b7023f1f),
          Word(0xc19201047ca3836d), Word(0xb2c48aa074f423a0)))

  const KEY0_15: State := State(
    Plane(Word(0xb273fa0c73d13990), Word(0x62242d05e01d121e), Word(0xfa9c34eaf78a41b0),
          Word(0xc84982a23bfce21c), Word(0x8bb12069f2e3ba2b)),
    Plane(Word(0x0e56b4afa5f4b8a8), Word(0x159110768af2a971), Word(0x47accbad921ac3f7),
          Word(0xb62c7ddbe1de1dea), Word(0x102e58e9c9e0277b)),
    Plane(Word(0x297fd610f99b2997), Word(0xeac800dcc898774d), Word(0x539174ebf86a7027),
          Word(0xc6e4f822d17d7628), Word(0xb9f37724088e1af8)),
    Plane(Word(0x7992518ffcbcc902), Word(0xed6182dc7105b502), Word(0x8e567295d121efa7),
          Word(0x4feb5804b8ccfd8b), Word(0x4b4e0b254fc23b6b)),
    Plane(Word(0x1671a18e1e3f265b), Word(0xcfbce374113bfb50), Word(0x69af7e59c4b6fae2),
          Word(0x53c93c226ee6a70b), Word(0xd4c91354c4e46a0f)))

  const KEY0_16: State := State(
    Plane(Word(0xf07b55f467f9c3b8), Word(0x5b44f50dd7e755c9), Word(0x62b45503b678bd46),
          Word(0x49606bd2e4a76607), Word(0x2a57aaf35daf3506)),
    Plane(Word(0xcc8f6a8a0ab7b2a7), Word(0x8e0cee5eac043ff6), Word(0xcecbf246ae1dd796),
          Word(0x6b9382a734b995be), Word(0xd0f9b8e10382969d)),
    Plane(Word(0x94181ced7ab72744), Word(0x5f3d657a6a3ec6b6), Word(0xf2100e6e39f0d7c1),
          Word(0x9bb12be8e743fc1f), Word(0x7bd4c80d55d39bc0)),
    Plane(Word(0x8cb77335f6f94491), Word(0xe8e2e8dccbd58f09), Word(0x829bbf41f3f904ae),
          Word(0x7cbaf4e1e3f53c4a), Word(0xa761cfdce0976fa5)),
    Plane(Word(0x039f8f11b2a8955b), Word(0xa3760b68ea9053ab), Word(0x566325fd1163de17),
          Word(0x493af4f6f376bbce), Word(0x36b244753b71a990)))

  const KEY0_17: State := State(
    Plane(Word(0x6b9d2f69564245a7), Word(0x25336bea2224a253), Word(0xe1b91fd8a8932a24),
          Word(0xa2610874b38b2f6d), Word(0x4a062e79aa881f64)),
    Plane(Word(0xa3fa1cd97a029f72), Word(0x103038901bd13b28), Word(0x3a9377a0d9399feb),
          Word(0xf0c02310382a8bfc), Word(0x61c0c7ae8c19f7c3)),
    Plane(Word(0xd75cd32094e23b60), Word(0xa148b3d446a5fa05), Word(0xb14cfcccf362abe5),
          Word(0x6bbaa94818c89d64), Word(0xbed62ed6678787d2)),
    Plane(Word(0xf8ec078a37613f2c), Word(0x397a8de5ee102423), Word(0x777533fe2ea999b7),
          Word(0xd7ed46fe01288be7), Word(0xbbf03701c4804863)),
    Plane(Word(0xa4ba5336f3074322), Word(0x65d13b2a9e8ac182), Word(0xea4cef9c0b52f9ca),
          Word(0x8a31401db87460cf), Word(0x0732e7c9f030ed2b)))

  const KEY0_18: State := State(
    Plane(Word(0x5bcb906330790fe5), Word(0x16aa619211977017), Word(0x9cd205a21d39844d),
          Word(0x6641becc051fe0e0), Word(0xa6f7c37f00a029d9)),
    Plane(Word(0x479d5d5a106e64e2), Word(0xb31148d1e7882546), Word(0xcf334557bc9d8752),
          Word(0x4a3dfac5356d1f34), Word(0x4d64d40d8c9e6255)),
    Plane(Word(0x1161f4d8309d069f), Word(0x1b5885f18a0e6bcf), Word(0x188d0c2e919eb13e),
          Word(0xfddb0e131dac4c55), Word(0x4efc67f294a253a3)),
    Plane(Word(0x1f81f7667d24d605), Word(0x13152505ff8b462c), Word(0xae7715f31ef844b0),
          Word(0x27c19f147969ef18), Word(0xe23ac226db7e23aa)),
    Plane(Word(0x6d20b005b98d829a), Word(0x48ea5da3b2222810), Word(0x1dbf1e8065e3a09b),
          Word(0xfdc4dc80b13502ba), Word(0xa082770cb290aa7b)))

  const KEY0_19: State := State(
    Plane(Word(0x76cf69e32632be55), Word(0xf615437daa323a5c), Word(0x120f3d128e4cbf58),
          Word(0x2b1e15935f883316), Word(0xa9e1fdc9f8159503)),
    Plane(Word(0xeedd730065648622), Word(0x126f048c8d89d83e), Word(0x41e4e2d11598b923),
          Word(0x5866d3f93e8ef19d), Word(0xfddcff95b160f10f)),
    Plane(Word(0xb5e160e2e268ca0b), Word(0x7af6ba153250eb9d), Word(0x9d60d25b0515a1ac),
          Word(0xb4d7ad169d674f16), Word(0x3c1e392fc09726bf)),
    Plane(Word(0xbb7baa0eba5bbbe9), Word(0xc6e83594e7330581), Word(0x1d52023197eba736),
          Word(0x4b5c520dd6a9269f), Word(0x494e8a807938f577)),
    Plane(Word(0xc9a3f4eed8e0f262), Word(0x2d7ea33bdafa14a7), Word(0xa32d46de394388ed),
          Word(0x0eed7c4ce7d4c2fe), Word(0x38cebad6c500f09e)))

  const KEY0_20: State := State(
    Plane(Word(0x0d18d170f33f85a7), Word(0x733c924ecf4832ac), Word(0x72de6623ca995d98),
          Word(0xa6413a9404edd55d), Word(0xdfaf294f73a33361)),
    Plane(Word(0xe1451bdae8ab22ba), Word(0xb2f7b27fb19e11cb), Word(0x39b5da74bebde76b),
          Word(0xf5c9cc0756f3ac0e), Word(0xacfbd0d9c03f313c)),
    Plane(Word(0xd6a0ee760fab6846), Word(0x3082f249c29da4dd), Word(0xf6fdf55b4dee4364),
          Word(0x160f74372f2a6653), Word(0x8576e5f3f23c6858)),
    Plane(Word(0x6d80761c85ac4f89), Word(0x2e2f9c1972a0df1a), Word(0xd27d274758b5c2d4),
          Word(0xc81092a03a0a7033), Word(0x4462578221bea9f4)),
    Plane(Word(0x58da6388861ddd1a), Word(0x190fea57b2d7bac1), Word(0x047802c00d0a6cc5),
          Word(0x9b902199d1ea7ba3), Word(0xccf1dc978690ddc3)))

  const KEY0_21: State := State(
    Plane(Word(0x2f3b062cfdd87fd7), Word(0xa722b2a44f8b5bf7), Word(0xf6e5ab70d5029187),
          Word(0xc54b6c4b9b63d20a), Word(0x23e67f551c92f1c7)),
    Plane(Word(0xe8484bebfb2e931e), Word(0xbcedcbfca7c23928), Word(0x3e51ab78abf695f9),
          Word(0xe7a3dd979e80f4b7), Word(0x88c46ca9ab539cd0)),
    Plane(Word(0x5c62742021597499), Word(0xf48757fbde4d0ab5), Word(0x6b4ee63b6aa9f4ce),
          Word(0x2e2c1b987657f45c), Word(0x52d769f3d5aca0c6)),
    Plane(Word(0x1e7304e5cbb71052), Word(0x15ca843132fed462), Word(0x0d603c54966864b0),
          Word(0x66771810884daccf), Word(0x2081e073c338cf3d)),
    Plane(Word(0x6e6c484bafc357b2), Word(0xf339cdfef6fbcd71), Word(0xfa73a4462d565f24),
          Word(0xd72c9175c5504496), Word(0x96299ca1e6f5a856)))

  const KEY0_22: State := State(
    Plane(Word(0xe392fe24146a331d), Word(0xc77c02c315ea6b2d), Word(0x5386a2d6d63ad44d),
          Word(0x136545e647ed8418), Word(0x11499639cb66b74a)),
    Plane(Word(0x09f8d5e1a7b0437d), Word(0x00132e1350b8350e), Word(0x8241712903996c89),
          Word(0x59134ea261166564), Word(0xc11ff0bd044e9f67)),
    Plane(Word(0xc9701d08b5a6a69f), Word(0x352395a30f667c58), Word(0x07b8db504068f7c4),
          Word(0xc8e98622a64cc04a), Word(0x353eb10577a8915e)),
    Plane(Word(0x521e21a4f3462dbf), Word(0x0849bdfbf66837d7), Word(0x2f7bb46f0bac76d1),
          Word(0xbf9d0c9da05e32d7), Word(0x4edceba9eadd609a)),
    Plane(Word(0xe918251f3e944561), Word(0x5136c85717d693f5), Word(0x9c178ccfa4563010),
          Word(0x0ab81480a199a791), Word(0xd513cb93afd50232)))

  const KEY0_23: State := State(
    Plane(Word(0xdb13ba3d5edfa57c), Word(0x2daed4e293c386c5), Word(0x1acaae31d36bc3cc),
          Word(0xfdfebfd11873786b), Word(0x4e092b7c33806e26)),
    Plane(Word(0xe56e4be670201f86), Word(0x80fd253b716c09d0), Word(0x2583bc7079de1d7e),
          Word(0x532a59ec65e2691c), Word(0x399b094de4ebdb85)),
    Plane(Word(0x1e86b9c3164cefbf), Word(0xcbf5e76a3ca80d58), Word(0x94aa98fe72a66c92),
          Word(0x5c9a9eade4e02155), Word(0xad0f100ee0870761)),
    Plane(Word(0x5bec757b60f21ab1), Word(0x5af9907357bbae52), Word(0x218f0a4a9b07659d),
          Word(0xb14bca53cca237ba), Word(0x6683e4cbeb691d59)),
    Plane(Word(0x67fc012e8df40e2d), Word(0xbcb1afac4dcf1b6e), Word(0xcaaef6935e40f0f8),
          Word(0x9635bff4a30b4616), Word(0x8432ce3ec068e818)))

  const KEY0_24: State := State(
    Plane(Word(0x4c64340e4ad04e0c), Word(0x805031dbf57bb9c7), Word(0x2407579525d6eadf),
          Word(0x743e559bbf64be39), Word(0x3eeca6a7af823bd6)),
    Plane(Word(0x026bd7068cf46faa), Word(0x0a1bb5e3539d16d3), Word(0x33b39e8414de1e7b),
          Word(0xf7ebfdf248185014), Word(0x501418231df978c7)),
    Plane(Word(0x5d0209c4d12d121d), Word(0x8372fe70d46d208b), Word(0xb7e4dd5a28f81983),
          Word(0x24936fb4bb576686), Word(0xae95b3ec9b773cb3)),
    Plane(Word(0xab3d1462c11f5af6), Word(0xd6933e4de1109fde), Word(0x29dd89d6d20f2d34),
          Word(0x1ef5c962b9e8ff90), Word(0x1524c5f50e6780e6)),
    Plane(Word(0x1c5301ec4e385cf6), Word(0xcfb4d84b076cb6c1), Word(0x9ffaf29277b2d14a),
          Word(0xfa67a18c0cdcdce1), Word(0x24d924b58a48f2f4)))

  const KEY1_0: State := State(
    Plane(Word(0x6170727463692e6a), Word(0x68406570632e6d6e), Word(0x3335203539383936),
          Word(0x3436333333383733), Word(0x3931313736203338)),
    Plane(Word(0x350a323839303436), Word(0x3730313834363021), Word(0x2039363838323331),
          Word(0x3131303737362038), Word(0x3638313533203833)),
    Plane(Word(0x3930383334343037), Word(0x3332373120323334), Word(0x2020340a31383130),
          Word(0x7463692e6b656468), Word(0x70632e6d6f310a30)),
    Plane(Word(0x3539383937323339), Word(0x3333383732203931), Word(0x3736203339393936),
          Word(0x3839303437343921), Word(0x3834363020323637)),
    Plane(Word(0x3838323330383434), Word(0x37373620390a2033), Word(0x3533203832333237),
          Word(0x3334343036353934), Word(0x3120323335393531)))

  const KEY1_1: State := State(
    Plane(Word(0xa7878e61c05b46a9), Word(0x8fc8f15299e16bb2), Word(0x47248d83e62b86f8),
          Word(0xdd9c4f810dedbd88), Word(0xfe6dd3755706f2e5)),
    Plane(Word(0x3f61442b7ef817da), Word(0xbf99da615911cc59), Word(0xef26d41d8a625794),
          Word(0xc4c46633ed4945ac), Word(0xd52c4a61525c3c55)),
    Plane(Word(0x00aeb63ab82104d8), Word(0x21c166baafa428af), Word(0xf55e5aa328b31e16),
          Word(0x1f0cd6ac0e0f8d42), Word(0x214f9c8f6266d20c)),
    Plane(Word(0x905450b0946ea59b), Word(0xa02d039b7f8d2d9a), Word(0x9c6b51fcb55ad0c8),
          Word(0xcc90cc62c45dd103), Word(0x18476e4bcf73710d)),
    Plane(Word(0x2b69e105e8796ac9), Word(0x2b585a21e0783e0a), Word(0x0e91c5754636f06d),
          Word(0x3aff8966f19b1968), Word(0xc4ae131689f5a1e6)))

  const KEY1_2: State := State(
    Plane(Word(0x03ecd28460f318e1), Word(0x9891e3ba9dac00cb), Word(0xcb67645661d72bfc),
          Word(0x0b4c41d4ced57c55), Word(0x14b089d6d94a1817)),
    Plane(Word(0x9f98d8ff0fbec2aa), Word(0x1e1742ab72865b86), Word(0x5e9f40f786ce8ba7),
          Word(0x3c0b0b8337d0ad4d), Word(0x6e8775ae2009bf90)),
    Plane(Word(0x6730fef97860d4e8), Word(0xfb2704f2172d646b), Word(0x6965f9f62cfcc871),
          Word(0xb62fde1c35d9ae46), Word(0xce9da2007ad32317)),
    Plane(Word(0x2dca5b70e37349c3), Word(0xf8f3035dcec119a3), Word(0xe610dc8735b3ae75),
          Word(0xbb7f79809b4374ed), Word(0xd84cb7e25a857846)),
    Plane(Word(0xdf4192aaa24652ab), Word(0x40d3d424358cf510), Word(0x412f59dacadf42b4),
          Word(0xaccdd3a6da1432a4), Word(0x7d90a637d2896822)))

  const KEY1_3: State := State(
    Plane(Word(0x1a9e3c1f6efb2291), Word(0x0c68b878f4be32ca), Word(0x23e6fc8e059d01a5),
          Word(0x5b175e6a5c8a473d), Word(0x7cdb3ecc1eacaaf5)),
    Plane(Word(0xa6d4fd144d6129e4), Word(0x17a553e6c19eba33), Word(0x7f22a133c15f79ff),
          Word(0x4a63ddcb14e23e31), Word(0xc40348d9ea4ee872)),
    Plane(Word(0x5c188fed4e5a79be), Word(0xaa4080de90ea8220), Word(0x782052020a0fd2b2),
          Word(0x04c37fbb7e64ee75), Word(0x424d9d3f25519295)),
    Plane(Word(0xcfc760f435af7f7e), Word(0x623e110758c12060), Word(0xb4b279a0e9f9f99b),
          Word(0xb1611eb787e18572), Word(0x87ed9414bcb9a49f)),
    Plane(Word(0x18ccd3845a13ac3c), Word(0x67c692ac788aa150), Word(0xbd198fa5eeef4a8e),
          Word(0xf460a36aa983915c), Word(0xde4345c20b97b437)))

  const KEY1_4: State := State(
    Plane(Word(0xc9357f7d4b6e5d02), Word(0x068447a403c01705), Word(0x3bb5aea9c9cf8dfb),
          Word(0x1eb4f217bd3a0efa), Word(0xbd4a4542298cb814)),
    Plane(Word(0x19c6afda4f02bbb2), Word(0x632f2c5c82a7296e), Word(0xbf433a3116271664),
          Word(0xf6c4c09c53fc1c23), Word(0x17295c988b0b78b4)),
    Plane(Word(0xb358655630eb9097), Word(0x86f8629d04dd2402), Word(0xf06508f83bccf1a7),
          Word(0xe96fdea22cccdbbb), Word(0xee1e4ebced436278)),
    Plane(Word(0x2811cf558216f82d), Word(0x8ebde284ea6f7333), Word(0x4ea5a52980c06c16),
          Word(0xa1622c02387cc4f5), Word(0xd37179ad78ec60db)),
    Plane(Word(0x2e96a5eccc238934), Word(0x5cc0ab28cf8c15f3), Word(0xeb2b3909a413aa10),
          Word(0xe6edaac867279d80), Word(0x7802793fa588cccf)))

  const KEY1_5: State := State(
    Plane(Word(0x546ea93ad9ba8a17), Word(0xe770634f3d291fef), Word(0x3f6900620847840b),
          Word(0x715f317e23014efc), Word(0x4853612e52a86831)),
    Plane(Word(0x95c953f4c319559a), Word(0x8b3433de0dd93c2e), Word(0x5a352d0f979f2499),
          Word(0x4086434077abe32f), Word(0xe0d2958acb3d94d2)),
    Plane(Word(0x87b500cff9b6d4af), Word(0x7b46c7e3f76098dd), Word(0x5192d6111bccd3e2),
          Word(0xb9acde0ad8eea0d3), Word(0x9e66b7e5fceaa751)),
    Plane(Word(0xa0fcd805f924188f), Word(0xd1064ec851476389), Word(0x9d1d33fe606f052f),
          Word(0x10178c2f8044f5d4), Word(0x76e9eecd61c1137c)),
    Plane(Word(0x18ecc7e9b5c9365f), Word(0xc27d84fd1ee925f6), Word(0xdc3e99353a886d80),
          Word(0x08b96b2382ba30bd), Word(0xad49f392d9572b42)))

  const KEY1_6: State := State(
    Plane(Word(0xbccbdfabbc862f5c), Word(0x72ea05ebc5430374), Word(0xf5b2d1a0a0c92c15),
          Word(0x15bfa10d365bed94), Word(0x9ef86243a96270c5)),
    Plane(Word(0x446409a32df1e2e5), Word(0x78a93f7b35e1c081), Word(0x010120b195e24f2f),
          Word(0x6e78b9b8490ac5a2), Word(0x0daf8c1025f06006)),
    Plane(Word(0xe4125b2254438f67), Word(0xc8bdae4034822a47), Word(0x89fa5fbe1e6a9b03),
          Word(0x577e2438c9b8fa19), Word(0x974865361d47b57c)),
    Plane(Word(0x7e1e15cd11046ea4), Word(0xecbcb505038eee11), Word(0x79860791738a463e),
          Word(0x787c7fcb744fb86b), Word(0xfb671284af2c8bbc)),
    Plane(Word(0xc6a9befd3f51b86e), Word(0xd5f672d5e7696d76), Word(0xce866f8d7d9f5594),
          Word(0xe12b388b967a086d), Word(0x6ec149fe73d49bfa)))

  const KEY1_7: State := State(
    Plane(Word(0x7b9ea1f8a6bccb37), Word(0x986a648009627101), Word(0x7eacbcbc63d5a0b4),
          Word(0x28c36983017363c3), Word(0xdfa0b871fd3e948e)),
    Plane(Word(0x088447d708c824dc), Word(0x7f2e6cf680a7011b), Word(0x1c40e9889b17728e),
          Word(0xd5a45d19a28f7450), Word(0xfdd7e1425ebb1e61)),
    Plane(Word(0xa46b391e1912000f), Word(0xcf611ace27f95e66), Word(0x4865ed36b34e8964),
          Word(0x19426c09bac5bc0a), Word(0x7988cd0a469aeb83)),
    Plane(Word(0x594f39d32bb8128d), Word(0x54a92658ff0fdfd5), Word(0x9c1cf2512b84d2e8),
          Word(0x81d615fadd4c76d2), Word(0x0928137e066e9cca)),
    Plane(Word(0xd54a835ecb6dc5e9), Word(0xa343e16f1c3d8292), Word(0x3dddbcb159297e4b),
          Word(0x065d757b1eaea49b), Word(0xb5be46840a16bb15)))

  const KEY1_8: State := State(
    Plane(Word(0x236133a6d5c3ebf0), Word(0x7ec6074cb750e3f5), Word(0x9c56f10dd6a5b24d),
          Word(0x11e69464981eaa6d), Word(0x717d9fe2c6f9d83a)),
    Plane(Word(0xaac1cf8f86988780), Word(0x2397f141ef929011), Word(0xe0429e19337f22df),
          Word(0x8b15c3bd17019b5b), Word(0x04abf3431d3037cb)),
    Plane(Word(0x633f8cf559247ec7), Word(0x129308ea38f88d8d), Word(0x58acb585249b9611),
          Word(0x67f10dd39a9552d8), Word(0xb2cee051366eb7f3)),
    Plane(Word(0xdc0684ead0531450), Word(0x128d60130e3b50e2), Word(0x1248de0830e07792),
          Word(0x77f9f17cc93bf047), Word(0x227b870519d58179)),
    Plane(Word(0x4b3e6607e7c04813), Word(0x614c0d952e84bca7), Word(0xab688d8ae20e731f),
          Word(0xc662d002726c14b9), Word(0x9ed9bdccff11e7a3)))

  const KEY1_9: State := State(
    Plane(Word(0x008ccaf1b72af177), Word(0x8e0686410636ed50), Word(0x5456ef68eed4218c),
          Word(0x83f1ab09bf8b93b2), Word(0xf5958e853f43c441)),
    Plane(Word(0x59d71d793ff0b731), Word(0xe61d89d3b73bb75a), Word(0x449af576998d2f59),
          Word(0x3b552ade5c103081), Word(0xe5c3bf029fed0d28)),
    Plane(Word(0x51a016a717d55b38), Word(0xd43ee7cf80ce34d5), Word(0x371e5c7bc65e1bdb),
          Word(0x8dd81bdec11bd1a5), Word(0xd7af56edca4786ce)),
    Plane(Word(0xb0bdc2973e2d5e17), Word(0x06d9d26c8307bdec), Word(0x140f7d99692d9513),
          Word(0x7dd376ed21cf01b8), Word(0x48ac9f3de2b7a42b)),
    Plane(Word(0xcb5fe4a1f2b06811), Word(0x32f9dc2e1c293476), Word(0x3eb493820c8c7af9),
          Word(0x340c609e540c0034), Word(0xafca2e1adcd2cd5a)))

  const KEY1_10: State := State(
    Plane(Word(0x985982813a699b83), Word(0x07b424f969e14450), Word(0x32c1533bc53c8b61),
          Word(0x6123deb45a572086), Word(0xdd92a3513bae6982)),
    Plane(Word(0xd5235447dcea70fe), Word(0xd0ed71e08487f12f), Word(0x083426a5f5197b6b),
          Word(0xd86a9fa0e0d31fb5), Word(0x097a650d21996a70)),
    Plane(Word(0xcee16bc27bd273f3), Word(0x7e86d274798b4bcd), Word(0xb67bc041dab13213),
          Word(0x384d75532841c112), Word(0xcb4d6bba013a6723)),
    Plane(Word(0xff792e2518f1a822), Word(0x6acce6c59c2050b3), Word(0xed00e7ac77a116e6),
          Word(0xc3b811aa4b613ee6), Word(0x7c7c8aa6fe29e226)),
    Plane(Word(0x590516407925c8a3), Word(0x019784975d215f21), Word(0x18d0b80d17c0738c),
          Word(0xf46c954033958a48), Word(0xc8772ebc9fcbbc59)))

  const KEY1_11: State := State(
    Plane(Word(0xdc7f4183eb7feb64), Word(0x917ae96e7b1b53da), Word(0xda8142eab28322db),
          Word(0x974cc95e3350f579), Word(0x2534834451b289c8)),
    Plane(Word(0x22538f2ad5d20ad1), Word(0x2af93f8f8ed56055), Word(0x2001e208772598b1),
          Word(0xdcca1f9052d93ea8), Word(0xa2de879838c486fa)),
    Plane(Word(0x8b5aaee95937ef63), Word(0x8578b8942697f5a9), Word(0xbea4f426380dd713),
          Word(0xc3e4826e135696f1), Word(0x132ab05865f1ce83)),
    Plane(Word(0xdb4184d89eb0ea6e), Word(0x5c2ad80b90415d40), Word(0x3415a62bd1f48cef),
          Word(0x28e0fb87a06ce193), Word(0x62506f6be605aa48)),
    Plane(Word(0xa77dfcdff90cb9de), Word(0x437a369387dcf9f4), Word(0x51789d17694c4a29),
          Word(0x2aa9ba72bddb5747), Word(0x13b5540ed37ce303)))

  const KEY1_12: State := State(
    Plane(Word(0xfb1ecff11b79afa0), Word(0x720446132e8bf40c), Word(0x4b566b4ece758b92),
          Word(0x15ba50e228397869), Word(0x98d57f14280ce287)),
    Plane(Word(0x091be46135c8fa77), Word(0x269f7e6d7dd1241a), Word(0x2d51a29f4605294b),
          Word(0x0aa042ef7273435c), Word(0x68b4bce646483be2)),
    Plane(Word(0x350d3db3d0643ee5), Word(0x3812935b4da1429f), Word(0xa8de753ba651c9e1),
          Word(0xdb0ae89903cfc37a), Word(0x818727a3dc0b443d)),
    Plane(Word(0x784c38c59c029b0c), Word(0x5c4611b8c61011c2), Word(0x883d04b81bfff233),
          Word(0xf60271f519ae48e4), Word(0x0fc1ebf20a9b35ef)),
    Plane(Word(0x311b23eb60ed65ed), Word(0xf41bc40df1271f9a), Word(0x484f59c5dba8ca25),
          Word(0x941b5ad12e15e415), Word(0x628b0084a265d5b2)))

  const KEY1_13: State := State(
    Plane(Word(0x60981df656136b02), Word(0xb1614d054b1cde10), Word(0x3da1c9034fe49a91),
          Word(0x89885aa868493731), Word(0x23aaf00283aee63f)),
    Plane(Word(0xbf3ee094526648fb), Word(0xb0c3407d5e2d2137), Word(0x385e7da2ee63cefc),
          Word(0x436b74f989d7c31a), Word(0x78d110a6a85a3ff5)),
    Plane(Word(0x42393473f0234d01), Word(0x139f93ccad453d78), Word(0x802111c0b8fdf264),
          Word(0xf6294803b0dbf9b5), Word(0x62366c98886aa097)),
    Plane(Word(0xd3663ea8ed17152d), Word(0xca8bfc3be3fae636), Word(0x78766ecdd5f443ac),
          Word(0xaeb4636f12cd94dd), Word(0x3daa29b40815630f)),
    Plane(Word(0xb0e57fae8ed36b85), Word(0x69bcec1c9ad532d5), Word(0xa85dba39b636348e),
          Word(0x751f10d991a4ca20), Word(0x9056a8ecaec02025)))

  const KEY1_14: State := State(
    Plane(Word(0x043cec19dceea8a4), Word(0xed7f1e5370ae03cc), Word(0x5b117f6f5965746d),
          Word(0x12785563e23c586d), Word(0xc24ac6b016e9e103)),
    Plane(Word(0xf1ae59ac63d13373), Word(0x5cd34748c3763893), Word(0x34998183f6f4f0e1),
          Word(0x6b824becb7f19322), Word(0xbca3a7ecfa40b81e)),
    Plane(Word(0xd12f8ce870fe842b), Word(0xa79a2b67c41f20f1), Word(0xb011eab001386c47),
          Word(0xb22637b51cc20d0e), Word(0x9b2416bb7a2c38d5)),
    Plane(Word(0xedb73485ebd767ae), Word(0x19bde715f86d0fbb), Word(0x27e3c73e9e3df139),
          Word(0x6e3fecff90ed965f), Word(0xf409432b94c9823e)),
    Plane(Word(0x00fa5ba66fb9cbb2), Word(0x2b1bba4cd235aaf6), Word(0x9043b238d7b6a8b2),
          Word(0xd494055b8e7c1e67), Word(0x9e2fb88e709e374d)))

  const KEY1_15: State := State(
    Plane(Word(0x5297bdb37706cac4), Word(0xea9f7815903a044b), Word(0xcb7b93b570990a90),
          Word(0x66f65f51dd013ae3), Word(0x39332c53cf856b0e)),
    Plane(Word(0xd90be30166c16a7b), Word(0xf83aa81b3c07664c), Word(0xbf267485c8195af4),
          Word(0x6fd354066c228d3b), Word(0x4a278b9c3c863050)),
    Plane(Word(0xafcf1d1b8882a5d9), Word(0xb188a7d51dd4ba3e), Word(0xf6ac1a2bf09f885c),
          Word(0x576e4d74682b230f), Word(0x36ba7bd19e4b00e2)),
    Plane(Word(0xd68757415880a9e6), Word(0xb7c8a6ab5e488a4c), Word(0x22def93753cecdf8),
          Word(0xb283b24e3196749e), Word(0x71ebdadea3d4e90e)),
    Plane(Word(0x535b34f96a54d107), Word(0x8b9b365b391aa945), Word(0xfce8aeb5df8d88c5),
          Word(0x5086a216594d0bc3), Word(0x42e0b81d4e77c418)))

  const KEY1_16: State := State(
    Plane(Word(0x97ec0db10896e000), Word(0x52801d0324b3d032), Word(0x1f22a0ab5688b42c),
          Word(0xbdd00698d37861ef), Word(0xcb8178231066fe9c)),
    Plane(Word(0x113afc260dd78001), Word(0xdd4db6021f5b5051), Word(0x3efa24890df33887),
          Word(0x293095fb1a54a7af), Word(0xcf245ffd2d5a63e4)),
    Plane(Word(0x696e1acfdaa4c6ad), Word(0x238b521e416dbedc), Word(0xad5a5b86ffcda135),
          Word(0x5ffe860b05fd080e), Word(0x01ccdb3146695c5f)),
    Plane(Word(0x5b4af72ebcf5dfd2), Word(0xedea8809153118ac), Word(0xa1cbd4eff7e6cbc7),
          Word(0x107f52e13acdfa1e), Word(0x367502743594e75f)),
    Plane(Word(0x0326663e1443492d), Word(0x953d67d8981dc63c), Word(0x1b253724b5b6edbc),
          Word(0x39502927af6fd667), Word(0xfa240425eadf2f70)))

  const KEY1_17: State := State(
    Plane(Word(0x6ff5f71b075b0cd5), Word(0x252c82742a1f525f), Word(0x1daff8efcea8b478),
          Word(0xee028a6c3dd5ac43), Word(0x678ed726b3784fe7)),
    Plane(Word(0xa45c6081399488f8), Word(0xd87928664757abf9), Word(0x4bbe3666814477da),
          Word(0xe16686ddf0d31135), Word(0xd95b57e8d85f3a3b)),
    Plane(Word(0x221c3708ece92943), Word(0x4ef3c6522f4738ea), Word(0x33337a1bf57fc6de),
          Word(0xff9049837d75acbe), Word(0x4416bce802ef9c7a)),
    Plane(Word(0xf97fb968aa55c0b2), Word(0x6b184d7727807848), Word(0x8d43234fca6532a1),
          Word(0x639e4b5435f39a8c), Word(0x931d49e72503858b)),
    Plane(Word(0xd1dd3b8e4ed124bb), Word(0x0dc69e9ef49a5f58), Word(0xd6aff2ce20ab03e8),
          Word(0x731d40b4e4b03be5), Word(0x14c7111cba01c5d1)))

  const KEY1_18: State := State(
    Plane(Word(0x3a1de5a5d17ad930), Word(0x5d3e4005ac370558), Word(0x5a46a1b57b0ba493),
          Word(0xc785477f2a24cc4c), Word(0xc66bafd755eed9a3)),
    Plane(Word(0x6a81f8b8a2afa27e), Word(0xdd25d873b1ff2625), Word(0x5fe66439ca1920bb),
          Word(0x0b287e52f420b453), Word(0x6d4b38196b2be09f)),
    Plane(Word(0x66ceb54f1a4c2e2d), Word(0x8a479edd9dbd1566), Word(0xd7815b56e62ec1ce),
          Word(0x770f49250fa103d0), Word(0x0803627183c80986)),
    Plane(Word(0xc558634c0c0eb1e9), Word(0xd75f97dfb9dff0dc), Word(0xc8aea3817867afdd),
          Word(0x45e94e889af9caca), Word(0x3ab1797f2f18784a)),
    Plane(Word(0xc3c374baa22e6cdd), Word(0x5c12295932a20943), Word(0xc9eb1b33a7d35805),
          Word(0x6b41cad50a33c874), Word(0xf925523492897874)))

  const KEY1_19: State := State(
    Plane(Word(0xdbcc404fefb97fbd), Word(0x5ca2d4b155301275), Word(0xd1ad5de0683e885a),
          Word(0xe9832129bc1fc8ca), Word(0x126aa395446ac32f)),
    Plane(Word(0xf8b9cdf7cf5cedcf), Word(0xf154535b1c98ddc5), Word(0x2e91fe5c674cad00),
          Word(0x51bec8aae48d0cad), Word(0x4c1ffb7e95c1bc8c)),
    Plane(Word(0xd57f66c1f937da65), Word(0x187f6fd0f3d6e377), Word(0x0b0cb3afc58809b4),
          Word(0xbedf4781f42cc76e), Word(0x40d2db9f0f82a047)),
    Plane(Word(0x4549b58fb7378136), Word(0x222187e0094d60ef), Word(0x1bcea32d4367b27b),
          Word(0x6505ed5a694921f1), Word(0x4059006155c3e352)),
    Plane(Word(0x74609040b8f750f9), Word(0xb68050f379b58822), Word(0xc2730c4e4d54a724),
          Word(0x122c5d03b50fa66d), Word(0xaac36901d1231da5)))

  const KEY1_20: State := State(
    Plane(Word(0x91a1d401b1fcd5f6), Word(0x8334f6d48644dc31), Word(0xc4a867793781c674),
          Word(0xc563164b4ca99cd8), Word(0x78dbe1a964a05552)),
    Plane(Word(0x04c74f04c7d7d6a7), Word(0x25ccb202baef59ff), Word(0x18869409bf9b9e13),
          Word(0xad8efdc6e4f5fa7e), Word(0x0019313a14cc4450)),
    Plane(Word(0x313446e4e547a3df), Word(0x4f7e605300d82c9d), Word(0xb316673f115d5a59),
          Word(0x54a356890e548734), Word(0x1ad6ecdced630014)),
    Plane(Word(0x0abfa9914f4d1514), Word(0x49856c8ccacd53a8), Word(0xb4f8d48718672654),
          Word(0x545915883b86cdb8), Word(0xfad79e32fbc4dedd)),
    Plane(Word(0xa6c54611d6f6459e), Word(0xdd9a6671b9096b2b), Word(0xa72831cf3fb85ee9),
          Word(0xe25436e90841c1ef), Word(0xb3e9a2d0b1dd2041)))

  const KEY1_21: State := State(
    Plane(Word(0xe9b98acc780dba76), Word(0x97cabd6e426550d4), Word(0xac989ed209ac61f9),
          Word(0xfb25667db56bcd2c), Word(0x125b996c4d41ce7e)),
    Plane(Word(0x75e1569d9edfa962), Word(0xfb4c48c60fd5a0ac), Word(0x186255ad61917fbd),
          Word(0x6ed4549fc311a3c4), Word(0xd1decc2f8a72021a)),
    Plane(Word(0x6d840d34e14f9e27), Word(0x2261bb8c4cf6123c), Word(0x832fa84144fcf559),
          Word(0x40ec903a65d53062), Word(0x6b13d8bc2a61db6c)),
    Plane(Word(0x772657c44f100aba), Word(0x9bfba2fe4ff0b599), Word(0x0200359cfdbe6efe),
          Word(0x643c3ca7fc01ee6b), Word(0xf009405fb5f9c164)),
    Plane(Word(0xea69f9f2b66b7e9b), Word(0x9cf38873c01aa027), Word(0x118e6c8a529b1d16),
          Word(0x23d778b5cba9db05), Word(0xa508d87b72a9b880)))

  const KEY1_22: State := State(
    Plane(Word(0x57da444d27551bfe), Word(0xa78165f294c8464a), Word(0xe6abd5b1e80bf680),
          Word(0x20d528316ff1696d), Word(0x1000a36a58787fb7)),
    Plane(Word(0x2c623ce602455e6e), Word(0xa5a50990f8b6a6ee), Word(0x1e7f05e29220d8dc),
          Word(0xffa417fbd57f9681), Word(0xefb49bbf4f2f8725)),
    Plane(Word(0x269f261b67bd205b), Word(0x8827342dee976725), Word(0x4dc66e6951392303),
          Word(0xbb4d5a7433c984e2), Word(0x8dca04e3764cd304)),
    Plane(Word(0x0e2462ebb7af4c09), Word(0xd45202a9ba8c065a), Word(0x336e18b66f735887),
          Word(0x4a50c51af7a6a301), Word(0xb9be2769231ce8cc)),
    Plane(Word(0x31878beb92a3907a), Word(0x764ed0801e9ce8f3), Word(0xb5e95fd441214bf7),
          Word(0x8733c409cc1488f0), Word(0xa7025dc4e4ddcbff)))

  const KEY1_23: State := State(
    Plane(Word(0x6e6937a1555f618a), Word(0x5a91c044205d017f), Word(0x465ea5b14b629250),
          Word(0x4492fa5588f5c93c), Word(0x0592ee5ada9c3a85)),
    Plane(Word(0x3260d404a8ab8495), Word(0x27473181c2f814ac), Word(0xda9ba3e464ad9570),
          Word(0x5267ce5f245d3f74), Word(0x1cea2a0762466a4c)),
    Plane(Word(0x443a09e6f1f13f5d), Word(0xff9933bcec8d4158), Word(0x302739360e968c76),
          Word(0xe820a59e7b08c1c5), Word(0x5570503d2638356b)),
    Plane(Word(0x182ac4ef11ebb165), Word(0x1ad9498109d6cbdf), Word(0x31ec968efd0fce36),
          Word(0x85c7c671c94a31a7), Word(0x13bd2ba06e90aa9d)),
    Plane(Word(0xea72a0e32ec71d94), Word(0xf00f62b4fa2ead74), Word(0x3dfa43f082931341),
          Word(0x2f2d59c792637339), Word(0xdf8e0c110efd741d)))

  const KEY1_24: State := State(
    Plane(Word(0xbd6351ebd03085f2), Word(0xe5a998cc6ebb444c), Word(0x24a1ae8f857ba802),
          Word(0x41ad54e2780400a9), Word(0x072ff10dbd9517dc)),
    Plane(Word(0x92b1bab50a3716a6), Word(0x899c3bd763815025), Word(0xf41145a3aa7728f8),
          Word(0xa235be2be07f96f8), Word(0xf6abb7950d42f969)),
    Plane(Word(0xa28730e01dfdb54f), Word(0x8b1da36412f1f405), Word(0x433506e042594238),
          Word(0xb53a0cc41f17fb87), Word(0x1bbc24a309d8a56b)),
    Plane(Word(0x14203d9f044f76f7), Word(0x48053710379b0c4f), Word(0x21ab0798ca4f2002),
          Word(0x91c39de50f123e21), Word(0x95ca2cb44bb1b95b)),
    Plane(Word(0xd028d9e427c812f5), Word(0x00717231f189cd86), Word(0x17f66eef5e15d0f6),
          Word(0x09561ab86c834ead), Word(0x6665c10402361f1b)))

  lemma Key0Round0()
    ensures Round(KEY0_0, 0) == KEY0_1
  {
  }

  lemma Key0Round1()
    ensures Round(KEY0_1, 1) == KEY0_2
  {
  }

  lemma Key0Round2()
    ensures Round(KEY0_2, 2) == KEY0_3
  {
  }

  lemma Key0Round3()
    ensures Round(KEY0_3, 3) == KEY0_4
  {
  }

  lemma Key0Round4()
    ensures Round(KEY0_4, 4) == KEY0_5
  {
  }

  lemma Key0Round5()
    ensures Round(KEY0_5, 5) == KEY0_6
  {
  }

  lemma Key0Round6()
    ensures Round(KEY0_6, 6) == KEY0_7
  {
  }

  lemma Key0Round7()
    ensures Round(KEY0_7, 7) == KEY0_8
  {
  }

  lemma Key0Round8()
    ensures Round(KEY0_8, 8) == KEY0_9
  {
  }

  lemma Key0Round9()
    ensures Round(KEY0_9, 9) == KEY0_10
  {
  }

  lemma Key0Round10()
    ensures Round(KEY0_10, 10) == KEY0_11
  {
  }

  lemma Key0Round11()
    ensures Round(KEY0_11, 11) == KEY0_12
  {
  }

  lemma Key0Round12()
    ensures Round(KEY0_12, 12) == KEY0_13
  {
  }

  lemma Key0Round13()
    ensures Round(KEY0_13, 13) == KEY0_14
  {
  }

  lemma Key0Round14()
    ensures Round(KEY0_14, 14) == KEY0_15
  {
  }

  lemma Key0Round15()
    ensures Round(KEY0_15, 15) == KEY0_16
  {
  }

  lemma Key0Round16()
    ensures Round(KEY0_16, 16) == KEY0_17
  {
  }

  lemma Key0Round17()
    ensures Round(KEY0_17, 17) == KEY0_18
  {
  }

  lemma Key0Round18()
    ensures Round(KEY0_18, 18) == KEY0_19
  {
  }

  lemma Key0Round19()
    ensures Round(KEY0_19, 19) == KEY0_20
  {
  }

  lemma Key0Round20()
    ensures Round(KEY0_20, 20) == KEY0_21
  {
  }

  lemma Key0Round21()
    ensures Round(KEY0_21, 21) == KEY0_22
  {
  }

  lemma Key0Round22()
    ensures Round(KEY0_22, 22) == KEY0_23
  {
  }

  lemma Key0Round23()
    ensures Round(KEY0_23, 23) == KEY0_24
  {
  }

  lemma Key1Round0()
    ensures Round(KEY1_0, 0) == KEY1_1
  {
  }

  lemma Key1Round1()
    ensures Round(KEY1_1, 1) == KEY1_2
  {
  }

  lemma Key1Round2()
    ensures Round(KEY1_2, 2) == KEY1_3
  {
  }

  lemma Key1Round3()
    ensures Round(KEY1_3, 3) == KEY1_4
  {
  }

  lemma Key1Round4()
    ensures Round(KEY1_4, 4) == KEY1_5
  {
  }

  lemma Key1Round5()
    ensures Round(KEY1_5, 5) == KEY1_6
  {
  }

  lemma Key1Round6()
    ensures Round(KEY1_6, 6) == KEY1_7
  {
  }

  lemma Key1Round7()
    ensures Round(KEY1_7, 7) == KEY1_8
  {
  }

  lemma Key1Round8()
    ensures Round(KEY1_8, 8) == KEY1_9
  {
  }

  lemma Key1Round9()
    ensures Round(KEY1_9, 9) == KEY1_10
  {
  }

  lemma Key1Round10()
    ensures Round(KEY1_10, 10) == KEY1_11
  {
  }

  lemma Key1Round11()
    ensures Round(KEY1_11, 11) == KEY1_12
  {
  }

  lemma Key1Round12()
    ensures Round(KEY1_12, 12) == KEY1_13
  {
  }

  lemma Key1Round13()
    ensures Round(KEY1_13, 13) == KEY1_14
  {
  }

  lemma Key1Round14()
    ensures Round(KEY1_14, 14) == KEY1_15
  {
  }

  lemma Key1Round15()
    ensures Round(KEY1_15, 15) == KEY1_16
  {
  }

  lemma Key1Round16()
    ensures Round(KEY1_16, 16) == KEY1_17
  {
  }

  lemma Key1Round17()
    ensures Round(KEY1_17, 17) == KEY1_18
  {
  }

  lemma Key1Round18()
    ensures Round(KEY1_18, 18) == KEY1_19
  {
  }

  lemma Key1Round19()
    ensures Round(KEY1_19, 19) == KEY1_20
  {
  }

  lemma Key1Round20()
    ensures Round(KEY1_20, 20) == KEY1_21
  {
  }

  lemma Key1Round21()
    ensures Round(KEY1_21, 21) == KEY1_22
  {
  }

  lemma Key1Round22()
    ensures Round(KEY1_22, 22) == KEY1_23
  {
  }

  lemma Key1Round23()
    ensures Round(KEY1_23, 23) == KEY1_24
  {
  }

  lemma NextRounds(a: State, n: nat)
    requires n < ROUNDS
    ensures Rounds(a, n + 1) == Round(Rounds(a, n), n) && Rounds(a, 0) == a
  {
  }

  lemma {:induction false} FoldAppend(s: seq<Word>, t: seq<Word>)
    ensures Scramble.Fold(s + t) == Xor(Scramble.Fold(s), Scramble.Fold(t))
  {
    hide Xor;
    if t == [] {
      assert s + t == s;
      Scramble.XorZero(Scramble.Fold(s));
    } else {
      var rest, last := t[..|t| - 1], t[|t| - 1];
      assert (s + t)[..|s + t| - 1] == s + rest;
      FoldAppend(s, rest);
      Scramble.XorAssociates(Scramble.Fold(s), Scramble.Fold(rest), last);
    }
  }

  lemma FoldOfOne(a: Word)
    ensures Scramble.Fold([a]) == a
  {
    assert [a][..0] == [];
    Scramble.XorZero(a);
  }

  lemma FoldOfFive(a: Word, b: Word, c: Word, d: Word, e: Word)
    ensures Scramble.Fold([a, b, c, d, e]) == Xor(Xor(Xor(Xor(a, b), c), d), e)
  {
    hide Xor, Scramble.Fold;
    FoldOfOne(a);
    FoldOfOne(b);
    FoldOfOne(c);
    FoldOfOne(d);
    FoldOfOne(e);
    FoldOfParts([a], [b], [c], [d], [e]);
    assert [a, b, c, d, e] == [a] + [b] + [c] + [d] + [e];
  }

  lemma FoldOfParts(a: seq<Word>, b: seq<Word>, c: seq<Word>, d: seq<Word>, e: seq<Word>)
    ensures Scramble.Fold(a + b + c + d + e)
         == Xor(Xor(Xor(Xor(Scramble.Fold(a), Scramble.Fold(b)), Scramble.Fold(c)), Scramble.Fold(d)), Scramble.Fold(e))
  {
    hide Xor, Scramble.Fold;
    FoldAppend(a, b);
    FoldAppend(a + b, c);
    FoldAppend(a + b + c, d);
    FoldAppend(a + b + c + d, e);
  }

  lemma Key0Permuted()
    ensures KeccakP(KEY0_0) == KEY0_24
  {
    hide Round, Rounds;
    NextRounds(KEY0_0, 0);
    Key0Round0();
    NextRounds(KEY0_0, 1);
    Key0Round1();
    NextRounds(KEY0_0, 2);
    Key0Round2();
    NextRounds(KEY0_0, 3);
    Key0Round3();
    NextRounds(KEY0_0, 4);
    Key0Round4();
    NextRounds(KEY0_0, 5);
    Key0Round5();
    NextRounds(KEY0_0, 6);
    Key0Round6();
    NextRounds(KEY0_0, 7);
    Key0Round7();
    NextRounds(KEY0_0, 8);
    Key0Round8();
    NextRounds(KEY0_0, 9);
    Key0Round9();
    NextRounds(KEY0_0, 10);
    Key0Round10();
    NextRounds(KEY0_0, 11);
    Key0Round11();
    NextRounds(KEY0_0, 12);
    Key0Round12();
    NextRounds(KEY0_0, 13);
    Key0Round13();
    NextRounds(KEY0_0, 14);
    Key0Round14();
    NextRounds(KEY0_0, 15);
    Key0Round15();
    NextRounds(KEY0_0, 16);
    Key0Round16();
    NextRounds(KEY0_0, 17);
    Key0Round17();
    NextRounds(KEY0_0, 18);
    Key0Round18();
    NextRounds(KEY0_0, 19);
    Key0Round19();
    NextRounds(KEY0_0, 20);
    Key0Round20();
    NextRounds(KEY0_0, 21);
    Key0Round21();
    NextRounds(KEY0_0, 22);
    Key0Round22();
    NextRounds(KEY0_0, 23);
    Key0Round23();
  }

  const KEY0_LANES_0: seq<Word> :=
    [Word(0x805031dbf57bb9c7), Word(0x2407579525d6eadf), Word(0x743e559bbf64be39),
     Word(0x3eeca6a7af823bd6), Word(0x026bd7068cf46faa)]

  lemma Key0Five0()
    ensures Scramble.Fold(KEY0_LANES_0) == Word(0xecee42744cbfb95d)
  {
    var f := KEY0_LANES_0;
    FoldOfFive(f[0], f[1], f[2], f[3], f[4]);
    hide Scramble.Fold;
  }

  const KEY0_LANES_1: seq<Word> :=
    [Word(0x0a1bb5e3539d16d3), Word(0x33b39e8414de1e7b), Word(0xf7ebfdf248185014),
     Word(0x501418231df978c7), Word(0x5d0209c4d12d121d)]

  lemma Key0Five1()
    ensures Scramble.Fold(KEY0_LANES_1) == Word(0xc355c772c38f3266)
  {
    var f := KEY0_LANES_1;
    FoldOfFive(f[0], f[1], f[2], f[3], f[4]);
    hide Scramble.Fold;
  }

  const KEY0_LANES_2: seq<Word> :=
    [Word(0x8372fe70d46d208b), Word(0xb7e4dd5a28f81983), Word(0x24936fb4bb576686),
     Word(0xae95b3ec9b773cb3), Word(0xab3d1462c11f5af6)]

  lemma Key0Five2()
    ensures Scramble.Fold(KEY0_LANES_2) == Word(0x15adeb101daa39cb)
  {
    var f := KEY0_LANES_2;
    FoldOfFive(f[0], f[1], f[2], f[3], f[4]);
    hide Scramble.Fold;
  }

  const KEY0_LANES_3: seq<Word> :=
    [Word(0xd6933e4de1109fde), Word(0x29dd89d6d20f2d34), Word(0x1ef5c962b9e8ff90),
     Word(0x1524c5f50e6780e6), Word(0x1c5301ec4e385cf6)]

  lemma Key0Five3()
    ensures Scramble.Fold(KEY0_LANES_3) == Word(0xe8ccbae0caa8916a)
  {
    var f := KEY0_LANES_3;
    FoldOfFive(f[0], f[1], f[2], f[3], f[4]);
    hide Scramble.Fold;
  }

  const KEY0_LANES_4: seq<Word> :=
    [Word(0xcfb4d84b076cb6c1), Word(0x9ffaf29277b2d14a), Word(0xfa67a18c0cdcdce1),
     Word(0x24d924b58a48f2f4), Word(0x4c64340e4ad04e0c)]

  lemma Key0Five4()
    ensures Scramble.Fold(KEY0_LANES_4) == Word(0xc2949beebc9a0792)
  {
    var f := KEY0_LANES_4;
    FoldOfFive(f[0], f[1], f[2], f[3], f[4]);
    hide Scramble.Fold;
  }

  lemma Key0Lanes()
    ensures Scramble.Rotated(Unlanes(KEY0_24))
         == KEY0_LANES_0 + KEY0_LANES_1 + KEY0_LANES_2 + KEY0_LANES_3 + KEY0_LANES_4
  {
  }

  lemma Key0Sum()
    ensures Scramble.Fold(KEY0_LANES_0 + KEY0_LANES_1 + KEY0_LANES_2 + KEY0_LANES_3 + KEY0_LANES_4)
         == Word(0x104e4f18e4a82408)
  {
    Key0Five0();
    Key0Five1();
    Key0Five2();
    Key0Five3();
    Key0Five4();
    FoldOfParts(KEY0_LANES_0, KEY0_LANES_1, KEY0_LANES_2, KEY0_LANES_3, KEY0_LANES_4);
    hide Scramble.Fold, Scramble.Rotated;
  }

  lemma Key0Word()
    ensures Scramble.KeyWord(0) == Word(0)
  {
  }

  lemma Key0Start()
    ensures Lanes(Scramble.Start(0)) == KEY0_0
  {
    Key0Word();
    hide Scramble.KeyWord;
  }

  lemma Key0Scramble()
    ensures Scramble.ScrambleOf(0, 1) == Word(0x104e4f18e4a82408)
  {
    hide KeccakP, Lanes, Unlanes, Scramble.Start, Scramble.Fold, Scramble.Rotated;
    Key0Start();
    Key0Permuted();
    Key0Lanes();
    Key0Sum();
    Scramble.AdvanceLane(Scramble.Start(0), 0);
  }

  lemma Key1Permuted()
    ensures KeccakP(KEY1_0) == KEY1_24
  {
    hide Round, Rounds;
    NextRounds(KEY1_0, 0);
    Key1Round0();
    NextRounds(KEY1_0, 1);
    Key1Round1();
    NextRounds(KEY1_0, 2);
    Key1Round2();
    NextRounds(KEY1_0, 3);
    Key1Round3();
    NextRounds(KEY1_0, 4);
    Key1Round4();
    NextRounds(KEY1_0, 5);
    Key1Round5();
    NextRounds(KEY1_0, 6);
    Key1Round6();
    NextRounds(KEY1_0, 7);
    Key1Round7();
    NextRounds(KEY1_0, 8);
    Key1Round8();
    NextRounds(KEY1_0, 9);
    Key1Round9();
    NextRounds(KEY1_0, 10);
    Key1Round10();
    NextRounds(KEY1_0, 11);
    Key1Round11();
    NextRounds(KEY1_0, 12);
    Key1Round12();
    NextRounds(KEY1_0, 13);
    Key1Round13();
    NextRounds(KEY1_0, 14);
    Key1Round14();
    NextRounds(KEY1_0, 15);
    Key1Round15();
    NextRounds(KEY1_0, 16);
    Key1Round16();
    NextRounds(KEY1_0, 17);
    Key1Round17();
    NextRounds(KEY1_0, 18);
    Key1Round18();
    NextRounds(KEY1_0, 19);
    Key1Round19();
    NextRounds(KEY1_0, 20);
    Key1Round20();
    NextRounds(KEY1_0, 21);
    Key1Round21();
    NextRounds(KEY1_0, 22);
    Key1Round22();
    NextRounds(KEY1_0, 23);
    Key1Round23();
  }

  const KEY1_LANES_0: seq<Word> :=
    [Word(0xe5a998cc6ebb444c), Word(0x24a1ae8f857ba802), Word(0x41ad54e2780400a9),
     Word(0x072ff10dbd9517dc), Word(0x92b1bab50a3716a6)]

  lemma Key1Five0()
    ensures Scramble.Fold(KEY1_LANES_0) == Word(0x153b29192466ed9d)
  {
    var f := KEY1_LANES_0;
    FoldOfFive(f[0], f[1], f[2], f[3], f[4]);
    hide Scramble.Fold;
  }

  const KEY1_LANES_1: seq<Word> :=
    [Word(0x899c3bd763815025), Word(0xf41145a3aa7728f8), Word(0xa235be2be07f96f8),
     Word(0xf6abb7950d42f969), Word(0xa28730e01dfdb54f)]

  lemma Key1Five1()
    ensures Scramble.Fold(KEY1_LANES_1) == Word(0x8b94472a3936a203)
  {
    var f := KEY1_LANES_1;
    FoldOfFive(f[0], f[1], f[2], f[3], f[4]);
    hide Scramble.Fold;
  }

  const KEY1_LANES_2: seq<Word> :=
    [Word(0x8b1da36412f1f405), Word(0x433506e042594238), Word(0xb53a0cc41f17fb87),
     Word(0x1bbc24a309d8a56b), Word(0x14203d9f044f76f7)]

  lemma Key1Five2()
    ensures Scramble.Fold(KEY1_LANES_2) == Word(0x728eb07c42289e26)
  {
    var f := KEY1_LANES_2;
    FoldOfFive(f[0], f[1], f[2], f[3], f[4]);
    hide Scramble.Fold;
  }

  const KEY1_LANES_3: seq<Word> :=
    [Word(0x48053710379b0c4f), Word(0x21ab0798ca4f2002), Word(0x91c39de50f123e21),
     Word(0x95ca2cb44bb1b95b), Word(0xd028d9e427c812f5)]

  lemma Key1Five3()
    ensures Scramble.Fold(KEY1_LANES_3) == Word(0xbd8f583d9ebfb9c2)
  {
    var f := KEY1_LANES_3;
    FoldOfFive(f[0], f[1], f[2], f[3], f[4]);
    hide Scramble.Fold;
  }

  const KEY1_LANES_4: seq<Word> :=
    [Word(0x00717231f189cd86), Word(0x17f66eef5e15d0f6), Word(0x09561ab86c834ead),
     Word(0x6665c10402361f1b), Word(0xbd6351ebd03085f2)]

  lemma Key1Five4()
    ensures Scramble.Fold(KEY1_LANES_4) == Word(0xc5d796891119c934)
  {
    var f := KEY1_LANES_4;
    FoldOfFive(f[0], f[1], f[2], f[3], f[4]);
    hide Scramble.Fold;
  }

  lemma Key1Lanes()
    ensures Scramble.Rotated(Unlanes(KEY1_24))
         == KEY1_LANES_0 + KEY1_LANES_1 + KEY1_LANES_2 + KEY1_LANES_3 + KEY1_LANES_4
  {
  }

  lemma Key1Sum()
    ensures Scramble.Fold(KEY1_LANES_0 + KEY1_LANES_1 + KEY1_LANES_2 + KEY1_LANES_3 + KEY1_LANES_4)
         == Word(0x947910fbd0dea14e)
  {
    Key1Five0();
    Key1Five1();
    Key1Five2();
    Key1Five3();
    Key1Five4();
    FoldOfParts(KEY1_LANES_0, KEY1_LANES_1, KEY1_LANES_2, KEY1_LANES_3, KEY1_LANES_4);
    hide Scramble.Fold, Scramble.Rotated;
  }

  lemma Key1Word()
    ensures Scramble.KeyWord(1) == Word(1)
  {
  }

  lemma Key1Start()
    ensures Lanes(Scramble.Start(1)) == KEY1_0
  {
    Key1Word();
    hide Scramble.KeyWord;
  }

  lemma Key1Scramble()
    ensures Scramble.ScrambleOf(1, 1) == Word(0x947910fbd0dea14e)
  {
    hide KeccakP, Lanes, Unlanes, Scramble.Start, Scramble.Fold, Scramble.Rotated;
    Key1Start();
    Key1Permuted();
    Key1Lanes();
    Key1Sum();
    Scramble.AdvanceLane(Scramble.Start(1), 0);
  }

  lemma SumOfBoth()
    ensures Xor(Word(0x104e4f18e4a82408), Word(0x947910fbd0dea14e)) == Word(0x84375fe334768546) != Scramble.ZERO
  {
  }

  lemma BothKeys()
    ensures Scramble.XorOfRange(0, 2, 1) == Xor(Scramble.ScrambleOf(0, 1), Scramble.ScrambleOf(1, 1))
  {
    hide Xor, Scramble.ScrambleOf;
    assert Scramble.XorOfRange(0, 1, 1) == Xor(Scramble.ZERO, Scramble.ScrambleOf(0, 1));
    Scramble.XorZero(Scramble.ScrambleOf(0, 1));
    assert Scramble.XorOfRange(0, 2, 1) == Xor(Scramble.XorOfRange(0, 1, 1), Scramble.ScrambleOf(1, 1));
  }

  /** With keys 0 and 1 and one iteration, stopped in the iteration of key 0: the host adds that key
      twice, so that the total is zero, while an uninterrupted run gives another sum. */
  lemma ResumeFails()
    ensures Scramble.XorOfRange(0, 2, 1) == Word(0x84375fe334768546) != Scramble.ZERO
    ensures
      var added := Scramble.HostAdds(Scramble.Iterate(Scramble.Start(0), 0), 0, 2, 0, 1);
      Xor(Scramble.XorOfRange(0, 0, 1), added) == Scramble.ZERO
  {
    Key0Scramble();
    Key1Scramble();
    SumOfBoth();
    BothKeys();
    hide Scramble.Fold, Scramble.Iterate, Scramble.Start, Scramble.ScrambleOf, Scramble.HostAdds, Xor;
    Scramble.ResumedTotal(0, 0, 0, 2, 1);
  }
}
